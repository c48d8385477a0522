/**
 A container's log buffer: cut to its last half whenever it grows over the cap.  It is
 compared with the log of every line ever appended.
 */
module LogBuffer {
  import opened Wrappers
  import opened Seqs

  const CAP: nat := 10000
  const KEPT: nat := 5000

  function Appended(buffer: seq<string>, line: string): seq<string> {
    var longer := buffer + [line];
    if |longer| > CAP then Last(longer, KEPT) else longer
  }

  /** What is left after all of `log` has been appended to an empty buffer. */
  function BufferOf(log: seq<string>): seq<string> {
    if log == [] then [] else Appended(BufferOf(log[..|log| - 1]), log[|log| - 1])
  }

  class Buffer {
    var lines: seq<string>

    constructor ()
      ensures lines == BufferOf([])
    {
      lines := [];
    }

    method AppendLog(line: string)
      modifies this
      ensures lines == Appended(old(lines), line)
      ensures forall log :: old(lines) == BufferOf(log) ==> lines == BufferOf(log + [line])
    {
      ghost var before := lines;
      lines := lines + [line];
      if |lines| > 10000 {
        lines := lines[|lines| - 5000..];
      }
      forall log | before == BufferOf(log) ensures lines == BufferOf(log + [line]) {
        assert (log + [line])[..|log|] == log;
      }
    }

    /** No tail, and a tail of nothing or less, mean everything. */
    method GetLogs(tail: Option<int>) returns (r: seq<string>)
      ensures r == if tail.Some? && tail.value > 0 then Last(lines, tail.value) else lines
      ensures forall log :: lines == BufferOf(log) && tail.Some? && 1 <= tail.value <= KEPT ==> r == Last(log, tail.value)
    {
      if tail.Some? && tail.value > 0 {
        r := if tail.value >= |lines| then lines else lines[|lines| - tail.value..];
        forall log | lines == BufferOf(log) && tail.value <= KEPT ensures r == Last(log, tail.value) {
          TailIsExact(log, tail.value);
        }
      } else {
        r := lines;
      }
    }
  }

  /** How many lines are left after `n` appends. */
  function KeptLength(n: nat): nat {
    if n <= CAP then n else KEPT + (n - (CAP + 1)) % (CAP + 1 - KEPT)
  }

  /** The buffer is a suffix of the log, of a length that only depends on the number of appends. */
  lemma {:induction false} BufferIsSuffix(log: seq<string>)
    ensures BufferOf(log) == Last(log, KeptLength(|log|))
  {
    if log != [] {
      var n := |log| - 1;
      BufferIsSuffix(log[..n]);
      NextLength(n);
      BufferGrows(log);
      hide *;
      SuffixGrows(log, KeptLength(n));
    }
  }

  lemma BufferGrows(log: seq<string>)
    requires log != []
    ensures BufferOf(log) == Appended(BufferOf(log[..|log| - 1]), log[|log| - 1])
  {
  }

  lemma SuffixGrows(log: seq<string>, k: nat)
    requires log != [] && k <= |log| - 1
    ensures Appended(Last(log[..|log| - 1], k), log[|log| - 1]) == Last(log, if k + 1 > CAP then KEPT else k + 1)
  {
    var n := |log| - 1;
    assert Last(log[..n], k) + [log[n]] == Last(log, k + 1);
  }

  lemma NextLength(n: nat)
    ensures KeptLength(n + 1) == if KeptLength(n) + 1 > CAP then KEPT else KeptLength(n) + 1
    ensures KeptLength(n) <= CAP && KeptLength(n) <= n
    ensures n > CAP ==> KeptLength(n) >= KEPT
  {
    if n > CAP {
      var p := CAP + 1 - KEPT;
      var m := n - (CAP + 1);
      assert m % p < p;
      assert (m + 1) % p == if m % p + 1 == p then 0 else m % p + 1 by {
        assert m == (m / p) * p + m % p;
      }
    }
  }

  /** A tail is what it would be of the whole log exactly when the buffer still holds that much. */
  lemma {:induction false} TailExactIff(log: seq<string>, k: nat)
    requires k >= 1
    ensures Last(BufferOf(log), k) == Last(log, k) <==> (k <= KeptLength(|log|) || |log| <= CAP)
  {
    BufferIsSuffix(log);
    NextLength(|log|);
    ShortLength(|log|);
    hide KeptLength, BufferOf;
    LastOfLast(log, KeptLength(|log|), k);
  }

  lemma LastOfLast(s: seq<string>, j: nat, k: nat)
    requires j <= |s|
    ensures Last(Last(s, j), k) == Last(s, if j <= k then j else k)
    ensures Last(s, j) == Last(s, k) <==> j == k || (j == |s| && k >= |s|)
  {
    assert |Last(s, j)| == j;
  }

  lemma ShortLength(n: nat)
    ensures n <= CAP ==> KeptLength(n) == n
  {
  }

  lemma {:induction false} TailIsExact(log: seq<string>, k: nat)
    requires 1 <= k <= KEPT
    ensures Last(BufferOf(log), k) == Last(log, k)
  {
    NextLength(|log|);
    hide KeptLength, BufferOf;
    TailExactIff(log, k);
  }
}
