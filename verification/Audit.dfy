/** treasuryforge/audit.py: a chain of keyed hashes over an append-only file.
    The keyed hash is any function on (previous digest, entry) that is injective and
    never gives the genesis value; canonical JSON is taken to be injective, so an entry
    stands for its canonical text. */
module Audit {

  import opened Wrappers

  /** A line of the file as json.loads sees it; fields may be missing. */
  datatype Line<D, E> =
    | Blank
    | Unparsable
    | Rec(prev: Option<D>, entry: Option<E>, hmac: Option<D>)

  datatype Verdict = Intact | Broken | Raised

  // ---- hypotheses on the keyed hash ----------------------------------------------------

  ghost predicate Ideal<D(!new), E(!new)>(mac: (D, E) -> D, genesis: D) {
    && (forall p, e, q, f :: mac(p, e) == mac(q, f) ==> p == q && e == f)
    && (forall p, e :: mac(p, e) != genesis)
  }

  /** An instance: digests as terms.  So the hypotheses are not contradictory. */
  datatype Term = Genesis | Sealed(prev: Term, entry: int)

  lemma IdealHashesExist()
    ensures Ideal((p: Term, e: int) => Sealed(p, e), Genesis)
  {
  }

  // ---- recording --------------------------------------------------------------------------

  /** The digest after the first n entries. */
  function Digest<D, E>(mac: (D, E) -> D, start: D, es: seq<E>, n: nat): D
    requires n <= |es|
  {
    if n == 0 then start else mac(Digest(mac, start, es, n - 1), es[n - 1])
  }

  function RecordedLine<D, E>(mac: (D, E) -> D, start: D, es: seq<E>, i: nat): Line<D, E>
    requires i < |es|
  {
    Rec(Some(Digest(mac, start, es, i)), Some(es[i]), Some(Digest(mac, start, es, i + 1)))
  }

  /** The lines written for the first n entries. */
  function RecordedUpTo<D, E>(mac: (D, E) -> D, start: D, es: seq<E>, n: nat): (lines: seq<Line<D, E>>)
    requires n <= |es|
    ensures |lines| == n
    ensures forall i :: 0 <= i < n ==> lines[i] == RecordedLine(mac, start, es, i)
  {
    if n == 0 then [] else RecordedUpTo(mac, start, es, n - 1) + [RecordedLine(mac, start, es, n - 1)]
  }

  function Recorded<D, E>(mac: (D, E) -> D, start: D, es: seq<E>): (lines: seq<Line<D, E>>)
    ensures |lines| == |es|
    ensures forall i :: 0 <= i < |es| ==> lines[i] == RecordedLine(mac, start, es, i)
  {
    RecordedUpTo(mac, start, es, |es|)
  }

  lemma {:induction false} DigestOfPrefix<D, E>(mac: (D, E) -> D, start: D, es: seq<E>, more: seq<E>, n: nat)
    requires n <= |es|
    ensures Digest(mac, start, es + more, n) == Digest(mac, start, es, n)
  {
    if n > 0 {
      DigestOfPrefix(mac, start, es, more, n - 1);
    }
  }

  class AuditLog<D(!new, ==), E(!new)> {
    const mac: (D, E) -> D
    const start: D
    var prev: D
    var file: seq<Line<D, E>>
    ghost const before: seq<Line<D, E>>        // what the file held when this log was opened
    ghost var entries: seq<E>                  // what this log has recorded

    ghost predicate Valid()
      reads this
    {
      && prev == Digest(mac, start, entries, |entries|)
      && file == before + Recorded(mac, start, entries)
    }

    /** prevHash defaults to the genesis value in the code, whatever the file holds. */
    constructor (mac: (D, E) -> D, prevHash: D, file: seq<Line<D, E>>)
      ensures this.mac == mac && start == prevHash && before == file && entries == [] && Valid()
    {
      this.mac, start, prev, this.file, before, entries := mac, prevHash, prevHash, file, file, [];
    }

    method Record(entry: E) returns (digest: D)
      requires Valid()
      modifies this
      ensures Valid() && entries == old(entries) + [entry] && digest == prev
      ensures old(file) <= file
    {
      digest := mac(prev, entry);
      file := file + [Rec(Some(prev), Some(entry), Some(digest))];
      prev := digest;
      ghost var was := entries;
      entries := entries + [entry];
      Extended(mac, start, was, entry);
    }
  }

  lemma Extended<D, E>(mac: (D, E) -> D, start: D, es: seq<E>, e: E)
    ensures Digest(mac, start, es + [e], |es| + 1) == mac(Digest(mac, start, es, |es|), e)
    ensures Recorded(mac, start, es + [e])
         == Recorded(mac, start, es)
            + [Rec(Some(Digest(mac, start, es, |es|)), Some(e), Some(mac(Digest(mac, start, es, |es|), e)))]
  {
    hide Digest;
    DigestUnfolds(mac, start, es, e);
    DigestOfPrefix(mac, start, es, [e], |es|);
    RecordedOfPrefix(mac, start, es, [e], |es|);
  }

  lemma {:induction false} RecordedOfPrefix<D, E>(mac: (D, E) -> D, start: D, es: seq<E>, more: seq<E>, n: nat)
    requires n <= |es|
    ensures RecordedUpTo(mac, start, es + more, n) == RecordedUpTo(mac, start, es, n)
  {
    hide Digest;
    if n > 0 {
      RecordedOfPrefix(mac, start, es, more, n - 1);
      DigestOfPrefix(mac, start, es, more, n - 1);
      DigestOfPrefix(mac, start, es, more, n);
    }
  }

  lemma DigestUnfolds<D, E>(mac: (D, E) -> D, start: D, es: seq<E>, e: E)
    ensures Digest(mac, start, es + [e], |es| + 1) == mac(Digest(mac, start, es, |es|), e)
  {
    DigestOfPrefix(mac, start, es, [e], |es|);
  }

  // ---- verifying -----------------------------------------------------------------------------

  /** The verdict on the lines from i on, with that digest expected. */
  function Checked<D(==), E>(mac: (D, E) -> D, lines: seq<Line<D, E>>, prev: D): Verdict {
    if lines == [] then Intact
    else match lines[0]
      case Blank => Checked(mac, lines[1..], prev)
      case Unparsable => Raised
      case Rec(p, e, h) =>
        if p != Some(prev) then Broken
        else if e.None? then Raised
        else if h != Some(mac(prev, e.value)) then Broken
        else Checked(mac, lines[1..], mac(prev, e.value))
  }

  method VerifyChain<D(==), E>(mac: (D, E) -> D, lines: seq<Line<D, E>>, genesis: D) returns (v: Verdict)
    ensures v == Checked(mac, lines, genesis)
  {
    var prev := genesis;
    for i := 0 to |lines|
      invariant Checked(mac, lines, genesis) == Checked(mac, lines[i..], prev)
    {
      var line := lines[i];
      if line.Rec? {
        if line.prev != Some(prev) {
          return Broken;
        }
        if line.entry.None? {
          return Raised;
        }
        var digest := mac(prev, line.entry.value);
        if line.hmac != Some(digest) {
          return Broken;
        }
        prev := digest;
      } else if line.Unparsable? {
        return Raised;
      }
    }
    return Intact;
  }

  /** The lines that are not blank. */
  function Kept<D, E>(lines: seq<Line<D, E>>): seq<Line<D, E>> {
    if lines == [] then [] else (if lines[0].Blank? then [] else [lines[0]]) + Kept(lines[1..])
  }

  lemma {:induction false} BlanksDoNotMatter<D, E>(mac: (D, E) -> D, lines: seq<Line<D, E>>, prev: D)
    ensures Checked(mac, lines, prev) == Checked(mac, Kept(lines), prev)
    ensures forall i :: 0 <= i < |Kept(lines)| ==> Kept(lines)[i] in lines && !Kept(lines)[i].Blank?
  {
    if lines != [] {
      assert lines == [lines[0]] + lines[1..];
      match lines[0]
      case Blank =>
        BlanksDoNotMatter(mac, lines[1..], prev);
        assert [] + Kept(lines[1..]) == Kept(lines[1..]);
      case Unparsable =>
        BlanksDoNotMatter(mac, lines[1..], prev);
      case Rec(p, e, h) =>
        BlanksDoNotMatter(mac, lines[1..], prev);
        if e.Some? {
          BlanksDoNotMatter(mac, lines[1..], mac(prev, e.value));
        }
        assert Kept(lines)[1..] == Kept(lines[1..]);
    }
  }

  // ---- what the checker accepts -----------------------------------------------------------------

  /** Every prefix of an untouched log, blank lines or not, is accepted: in particular the
      whole of it, and any truncation of its tail. */
  lemma {:induction false} UntouchedIsAccepted<D, E>(mac: (D, E) -> D, genesis: D, es: seq<E>, i: nat, n: nat)
    requires i <= n <= |es|
    ensures Checked(mac, Recorded(mac, genesis, es)[i..n], Digest(mac, genesis, es, i)) == Intact
    decreases n - i
  {
    if i < n {
      UntouchedIsAccepted(mac, genesis, es, i + 1, n);
      var lines := Recorded(mac, genesis, es)[i..n];
      assert lines[0] == RecordedLine(mac, genesis, es, i);
      assert lines[1..] == Recorded(mac, genesis, es)[i + 1..n];
    }
  }

  /** Whoever wrote the file had only the recorded keyed hashes to put in it. */
  ghost predicate OnlyRecordedHashes<D(!new), E(!new)>(mac: (D, E) -> D, genesis: D, es: seq<E>,
                                                       lines: seq<Line<D, E>>) {
    forall line, p, e :: line in lines && line.Rec? && line.hmac == Some(mac(p, e)) ==>
      WasRecorded(mac, genesis, es, mac(p, e))
  }

  ghost predicate WasRecorded<D(!new), E(!new)>(mac: (D, E) -> D, genesis: D, es: seq<E>, d: D) {
    exists j :: 0 < j <= |es| && d == Digest(mac, genesis, es, j)
  }

  lemma Injective<D(!new), E(!new)>(mac: (D, E) -> D, genesis: D, p: D, e: E, q: D, f: E)
    requires Ideal(mac, genesis) && mac(p, e) == mac(q, f)
    ensures p == q && e == f
  {
  }

  /** A recorded digest that seals on top of digest i can only be the next one. */
  lemma SealedNext<D(!new), E(!new)>(mac: (D, E) -> D, genesis: D, es: seq<E>, i: nat, e: E)
    requires Ideal(mac, genesis) && i <= |es|
    requires WasRecorded(mac, genesis, es, mac(Digest(mac, genesis, es, i), e))
    ensures i < |es| && e == es[i]
  {
    hide Ideal;
    var j :| 0 < j <= |es| && mac(Digest(mac, genesis, es, i), e) == Digest(mac, genesis, es, j);
    Injective(mac, genesis, Digest(mac, genesis, es, i), e, Digest(mac, genesis, es, j - 1), es[j - 1]);
    DigestsDiffer(mac, genesis, es, i, j - 1);
  }

  /** Digests along the chain are all different. */
  lemma {:induction false} DigestsDiffer<D(!new), E(!new)>(mac: (D, E) -> D, genesis: D, es: seq<E>, i: nat, j: nat)
    requires Ideal(mac, genesis) && i <= |es| && j <= |es|
    requires Digest(mac, genesis, es, i) == Digest(mac, genesis, es, j)
    ensures i == j
  {
    if i > 0 && j > 0 {
      DigestsDiffer(mac, genesis, es, i - 1, j - 1);
    }
  }

  lemma {:induction false} AcceptedFollowsLog<D(!new), E(!new)>(mac: (D, E) -> D, genesis: D, es: seq<E>,
                                                                lines: seq<Line<D, E>>, i: nat)
    requires Ideal(mac, genesis) && i <= |es| && OnlyRecordedHashes(mac, genesis, es, lines)
    requires forall k :: 0 <= k < |lines| ==> !lines[k].Blank?
    requires Checked(mac, lines, Digest(mac, genesis, es, i)) == Intact
    ensures i + |lines| <= |es| && lines == Recorded(mac, genesis, es)[i..i + |lines|]
    decreases |lines|
  {
    if lines != [] {
      var line, prev := lines[0], Digest(mac, genesis, es, i);
      assert line in lines && line.Rec? && line.hmac == Some(mac(prev, line.entry.value));
      SealedNext(mac, genesis, es, i, line.entry.value);
      assert line == RecordedLine(mac, genesis, es, i);
      AcceptedFollowsLog(mac, genesis, es, lines[1..], i + 1);
      var all := Recorded(mac, genesis, es);
      assert lines == [line] + lines[1..];
      assert all[i..i + |lines|] == [all[i]] + all[i + 1..i + |lines|];
    }
  }

  /** A file is accepted exactly when, blank lines aside, it is a prefix of what was
      recorded, line for line: an edit, a reordering, an insertion or a deletion before
      the end is caught, and a cut tail is not. */
  lemma AcceptedIffPrefix<D(!new), E(!new)>(mac: (D, E) -> D, genesis: D, es: seq<E>, lines: seq<Line<D, E>>)
    requires Ideal(mac, genesis) && OnlyRecordedHashes(mac, genesis, es, lines)
    ensures Checked(mac, lines, genesis) == Intact <==> Kept(lines) <= Recorded(mac, genesis, es)
  {
    var kept := Kept(lines);
    BlanksDoNotMatter(mac, lines, genesis);
    if Checked(mac, lines, genesis) == Intact {
      AcceptedFollowsLog(mac, genesis, es, kept, 0);
    }
    if kept <= Recorded(mac, genesis, es) {
      UntouchedIsAccepted(mac, genesis, es, 0, |kept|);
      assert Recorded(mac, genesis, es)[0..|kept|] == kept;
    }
  }

  // ---- a log opened again ---------------------------------------------------------------------------

  lemma {:induction false} CheckedThrough<D, E>(mac: (D, E) -> D, genesis: D, es: seq<E>, i: nat, rest: seq<Line<D, E>>)
    requires i <= |es|
    ensures Checked(mac, Recorded(mac, genesis, es)[i..] + rest, Digest(mac, genesis, es, i))
         == Checked(mac, rest, Digest(mac, genesis, es, |es|))
    decreases |es| - i
  {
    var lines := Recorded(mac, genesis, es)[i..] + rest;
    if i == |es| {
      assert lines == rest;
    } else {
      assert lines[0] == RecordedLine(mac, genesis, es, i);
      assert lines[1..] == Recorded(mac, genesis, es)[i + 1..] + rest;
      CheckedThrough(mac, genesis, es, i + 1, rest);
    }
  }

  /** A log opened with any other digest fails on its first line. */
  lemma FirstLineDecides<D(!new), E(!new)>(mac: (D, E) -> D, start: D, more: seq<E>, prev: D)
    requires more != [] && start != prev
    ensures Checked(mac, Recorded(mac, start, more), prev) == Broken
  {
    assert Recorded(mac, start, more)[0] == RecordedLine(mac, start, more, 0);
  }

  lemma SecondLog<D(!new), E(!new)>(mac: (D, E) -> D, start: D, more: seq<E>, prev: D)
    ensures Checked(mac, Recorded(mac, start, more), prev) == Intact <==> more == [] || start == prev
    ensures more != [] && start != prev ==> Checked(mac, Recorded(mac, start, more), prev) == Broken
  {
    if more != [] && start != prev {
      FirstLineDecides(mac, start, more, prev);
    } else if more != [] {
      UntouchedIsAccepted(mac, start, more, 0, |more|);
      var second := Recorded(mac, start, more);
      assert second[0..|more|] == second;
    }
  }

  /** A second log appending to the same file keeps the chain exactly when it is opened
      with the digest the first one ended on (or records nothing).  The default, the
      genesis value, breaks the chain of any file that already holds an entry. */
  lemma ReopenedChain<D(!new), E(!new)>(mac: (D, E) -> D, genesis: D, es: seq<E>, start: D, more: seq<E>)
    requires Ideal(mac, genesis)
    ensures Checked(mac, Recorded(mac, genesis, es) + Recorded(mac, start, more), genesis) == Intact
       <==> more == [] || start == Digest(mac, genesis, es, |es|)
    ensures start == genesis && es != [] && more != [] ==>
            Checked(mac, Recorded(mac, genesis, es) + Recorded(mac, start, more), genesis) == Broken
  {
    hide Ideal, Checked, Recorded, Digest;
    CheckedThrough(mac, genesis, es, 0, Recorded(mac, start, more));
    WholeLog(mac, genesis, es);
    SecondLog(mac, start, more, Digest(mac, genesis, es, |es|));
    if es != [] && genesis == Digest(mac, genesis, es, |es|) {
      DigestsDiffer(mac, genesis, es, 0, |es|);
    }
  }

  lemma WholeLog<D, E>(mac: (D, E) -> D, genesis: D, es: seq<E>)
    ensures Recorded(mac, genesis, es)[0..] == Recorded(mac, genesis, es)
    ensures Digest(mac, genesis, es, 0) == genesis
  {
  }

  /** What the checker says of the first line that differs from an untouched log: text that is no
      JSON, or a line without an entry, raises; any other line that does not carry on the chain
      is reported as broken, the link to the line before first. */
  lemma FirstBadLine<D(!new), E(!new)>(mac: (D, E) -> D, genesis: D, es: seq<E>, bad: Line<D, E>,
                                       rest: seq<Line<D, E>>)
    ensures var verdict := Checked(mac, Recorded(mac, genesis, es) + ([bad] + rest), genesis);
      var last := Digest(mac, genesis, es, |es|);
      && (bad.Unparsable? ==> verdict == Raised)
      && (bad.Rec? && bad.prev != Some(last) ==> verdict == Broken)
      && (bad.Rec? && bad.prev == Some(last) && bad.entry.None? ==> verdict == Raised)
      && (bad.Rec? && bad.prev == Some(last) && bad.entry.Some? && bad.hmac != Some(mac(last, bad.entry.value)) ==>
            verdict == Broken)
  {
    hide Recorded, Digest;
    CheckedThrough(mac, genesis, es, 0, [bad] + rest);
    WholeLog(mac, genesis, es);
  }
}
