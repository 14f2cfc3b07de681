/**
 * Stack usage measurement: the number of never-written (zero) words at the
 * low end of a stack, found by scanning upwards, and the resulting byte
 * counts. Memory is an array of 32-bit words; a pointer is a word index.
 */
module StackUsage {
  /** The number of leading zero words of `ws`. */
  function LeadingZeroWords(ws: seq<bv32>): (n: nat)
    ensures n <= |ws|
    ensures forall k :: 0 <= k < n ==> ws[k] == 0
    ensures n < |ws| ==> ws[n] != 0
  {
    if ws == [] || ws[0] != 0 then 0 else 1 + LeadingZeroWords(ws[1..])
  }

  /** Any prefix of zeros followed by a non-zero word (or the end) fixes the count. */
  lemma {:induction false} LeadingZeroWordsUnique(ws: seq<bv32>, n: nat)
    requires n <= |ws|
    requires forall k :: 0 <= k < n ==> ws[k] == 0
    requires n < |ws| ==> ws[n] != 0
    ensures LeadingZeroWords(ws) == n
  {
    if n > 0 {
      assert ws[0] == 0;
      LeadingZeroWordsUnique(ws[1..], n - 1);
    }
  }

  /**
   * `stack_unused_bytes_asm`: counts the zero words from `start` upwards,
   * at most `size` of them, stopping at the first non-zero word. It only
   * loads from memory.
   */
  method StackUnusedWords(mem: array<bv32>, start: nat, size: nat) returns (result: nat)
    requires start + size <= mem.Length
    ensures result == LeadingZeroWords(mem[start..start + size])
    ensures result <= size
    ensures forall k :: start <= k < start + result ==> mem[k] == 0
    ensures result < size ==> mem[start + result] != 0
  {
    result := 0;
    if size == 0 {
      LeadingZeroWordsUnique(mem[start..start + size], 0);
      return;
    }
    var p := start;
    while true
      invariant p == start + result && result < size
      invariant forall k :: start <= k < p ==> mem[k] == 0
      decreases size - result
    {
      var scratch := mem[p];
      if scratch != 0 {
        break;
      }
      result := result + 1;
      p := p + 1;
      if result == size {
        break;
      }
    }
    LeadingZeroWordsUnique(mem[start..start + size], result);
  }

  /**
   * `stack_used_bytes`: for the stack `start..end` (word indices), the
   * total size in bytes and the bytes in use above the unused zero words.
   */
  method StackUsedBytes(mem: array<bv32>, start: nat, end: nat) returns (total: nat, used: nat)
    requires start <= end <= mem.Length
    ensures total == 4 * (end - start)
    ensures used == 4 * (end - start - LeadingZeroWords(mem[start..end]))
    ensures used <= total
  {
    var sizeWords := end - start;
    var unusedWords := StackUnusedWords(mem, start, sizeWords);
    var usedWords := sizeWords - unusedWords;
    total, used := sizeWords * 4, usedWords * 4;
  }

  /** A stack that is still all zeros is reported as unused; one whose lowest word is written as full. */
  lemma UsageExtremes(ws: seq<bv32>)
    ensures (forall k :: 0 <= k < |ws| ==> ws[k] == 0) ==> LeadingZeroWords(ws) == |ws|
    ensures |ws| > 0 && ws[0] != 0 ==> LeadingZeroWords(ws) == 0
  {
    if forall k :: 0 <= k < |ws| ==> ws[k] == 0 {
      LeadingZeroWordsUnique(ws, |ws|);
    }
  }
}
