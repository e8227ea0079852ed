/** Notice de-duplication: the signature that stands for a pod's notices, and when they are reported again. */
module Notices {
  import opened Wrappers
  import opened PathText

  datatype Note = Note(code: string, message: string)

  const NUL: char := '\0'
  const QUOTA_MISSING := "cgroup_quota_missing"

  /** Codes are fixed words and messages quote what they embed, so neither holds a NUL. */
  predicate Printable(notes: seq<Note>) {
    forall i :: 0 <= i < |notes| ==> Free(notes[i].code, NUL) && Free(notes[i].message, NUL)
  }

  function Fields(notes: seq<Note>): (r: seq<string>)
    ensures |r| == 2 * |notes|
    ensures forall i :: 0 <= i < |notes| ==> r[2 * i] == notes[i].code && r[2 * i + 1] == notes[i].message
  {
    if notes == [] then [] else [notes[0].code, notes[0].message] + Fields(notes[1..])
  }

  function AllFields(notes: seq<Note>, quotaMissing: bool): seq<string> {
    Fields(notes) + (if quotaMissing then [QUOTA_MISSING] else [])
  }

  /** Every field followed by a NUL. */
  function Terminated(fields: seq<string>): string {
    if fields == [] then "" else fields[0] + [NUL] + Terminated(fields[1..])
  }

  /** What one report tells the user: the notes, and whether it says that the quota is missing. */
  datatype Said = Said(notes: seq<Note>, quotaMissing: bool)

  /** The signature a pass compares and records. */
  function Signature(notes: seq<Note>, quotaMissing: bool): string {
    Terminated(AllFields(notes, quotaMissing))
  }

  lemma {:induction false} TerminatedJoin(a: seq<string>, b: seq<string>)
    ensures Terminated(a + b) == Terminated(a) + Terminated(b)
  {
    if a == [] {
      assert a + b == b;
    } else {
      TerminatedJoin(a[1..], b);
      assert (a + b)[1..] == a[1..] + b;
      assert a[0] + [NUL] + (Terminated(a[1..]) + Terminated(b)) == a[0] + [NUL] + Terminated(a[1..]) + Terminated(b);
    }
  }

  lemma {:induction false} FieldsJoin(notes: seq<Note>, note: Note)
    ensures Fields(notes + [note]) == Fields(notes) + [note.code, note.message]
  {
    if notes != [] {
      FieldsJoin(notes[1..], note);
      assert (notes + [note])[1..] == notes[1..] + [note];
    }
  }

  /** noteSignature and the suffix Reconcile adds to it. */
  method NoteSignature(notes: seq<Note>, quotaMissing: bool) returns (s: string)
    ensures s == Signature(notes, quotaMissing)
  {
    s := "";
    for i := 0 to |notes|
      invariant s == Terminated(Fields(notes[..i]))
    {
      ghost var before := s;
      s := s + notes[i].code + [NUL] + notes[i].message + [NUL];
      assert notes[..i + 1] == notes[..i] + [notes[i]];
      FieldsJoin(notes[..i], notes[i]);
      TerminatedJoin(Fields(notes[..i]), [notes[i].code, notes[i].message]);
      TerminatedPair(notes[i].code, notes[i].message);
      assert s == before + (notes[i].code + [NUL] + notes[i].message + [NUL]);
    }
    assert notes[..|notes|] == notes;
    TerminatedJoin(Fields(notes), if quotaMissing then [QUOTA_MISSING] else []);
    if quotaMissing {
      s := s + QUOTA_MISSING + [NUL];
      assert Terminated([QUOTA_MISSING]) == QUOTA_MISSING + [NUL];
    }
  }

  lemma TerminatedPair(a: string, b: string)
    ensures Terminated([a, b]) == a + [NUL] + b + [NUL]
  {
    assert [a, b][1..] == [b] && [b][1..] == [];
    assert Terminated([b]) == b + [NUL] + "";
  }

  lemma {:induction false} SplitOfTerminated(fields: seq<string>)
    requires AllFree(fields, NUL)
    ensures Split(Terminated(fields), NUL) == fields + [""]
  {
    if fields != [] {
      SplitOfTerminated(fields[1..]);
      SplitOfFree(fields[0], NUL);
      SplitOfJoined(fields[0], NUL, Terminated(fields[1..]));
      assert fields + [""] == [fields[0]] + (fields[1..] + [""]);
    }
  }

  /** A signature stands for exactly one set of notices: two passes agree on it exactly when they have the
      same notes, in the same order, and the same missing-quota condition. Empty means nothing to say. */
  lemma SignatureIsFaithful(a: seq<Note>, qa: bool, b: seq<Note>, qb: bool)
    requires Printable(a) && Printable(b)
    ensures Signature(a, qa) == Signature(b, qb) <==> a == b && qa == qb
    ensures Signature(a, qa) == "" <==> a == [] && !qa
  {
    FieldsAreFree(a, qa);
    FieldsAreFree(b, qb);
    var fa, fb := AllFields(a, qa), AllFields(b, qb);
    SplitOfTerminated(fa);
    SplitOfTerminated(fb);
    if Signature(a, qa) == Signature(b, qb) {
      assert fa == (fa + [""])[..|fa|] && fb == (fb + [""])[..|fb|] && |fa| == |fb|;
      assert qa == qb && |a| == |b|;
      forall i | 0 <= i < |a|
        ensures a[i] == b[i]
      {
        assert fa[2 * i] == fb[2 * i] && fa[2 * i + 1] == fb[2 * i + 1];
      }
    }
  }

  lemma EmptySignature(notes: seq<Note>, quotaMissing: bool)
    ensures Signature(notes, quotaMissing) == "" <==> notes == [] && !quotaMissing
  {
    if AllFields(notes, quotaMissing) != [] {
      assert |Signature(notes, quotaMissing)| >= 1;
    }
  }

  lemma {:induction false} FieldsAreFree(notes: seq<Note>, quotaMissing: bool)
    requires Printable(notes)
    ensures AllFree(AllFields(notes, quotaMissing), NUL)
  {
    FieldsOfNotesAreFree(notes);
    assert Free(QUOTA_MISSING, NUL);
  }

  lemma {:induction false} FieldsOfNotesAreFree(notes: seq<Note>)
    requires Printable(notes)
    ensures AllFree(Fields(notes), NUL)
  {
    if notes != [] {
      FieldsOfNotesAreFree(notes[1..]);
    }
  }

  // ---- when notices are reported ----

  /** One pass over a pod: the signature it computes, whether the cgroup needs work, and whether the Apply
      or Revert it may call succeeds. */
  datatype Pass = Pass(signature: string, work: bool, ok: bool)

  /** The signature last reported for the pod, if any. */
  type Last = Option<string>

  predicate Changed(last: Last, p: Pass) {
    last != Some(p.signature)
  }

  datatype Route = Silent | Apply(report: bool) | Revert

  /** Reconcile's routing, from the early returns on. */
  function Routed(last: Last, p: Pass, wantsTier: bool): Route {
    var hasNotice := p.signature != "";
    if !p.work && !hasNotice then Silent
    else if !p.work && !Changed(last, p) then Silent
    else if wantsTier || hasNotice then Apply(hasNotice && Changed(last, p))
    else Revert
  }

  function Recorded(p: Pass): Last {
    if p.signature == "" then None else Some(p.signature)
  }

  /** The record after the pass: committed only by a pass that had nothing to say or that succeeded. */
  function NextLast(last: Last, p: Pass): Last {
    var hasNotice := p.signature != "";
    if !p.work && !hasNotice then None
    else if !p.work && !Changed(last, p) then last
    else if !p.ok then last
    else Recorded(p)
  }

  predicate Reports(last: Last, p: Pass, wantsTier: bool) {
    Routed(last, p, wantsTier) == Apply(true)
  }

  /** What an event of the reconciler is to one pod; `Elsewhere` is one that leaves its record alone. */
  datatype Event = Reconciled(p: Pass, wantsTier: bool) | Forgotten | Elsewhere

  function Step(last: Last, ev: Event): Last {
    match ev
    case Reconciled(p, _) => NextLast(last, p)
    case Forgotten => None
    case Elsewhere => last
  }

  function LastBefore(last: Last, evs: seq<Event>, i: nat): Last
    requires i <= |evs|
  {
    if i == 0 then last else Step(LastBefore(last, evs, i - 1), evs[i - 1])
  }

  /** Records that follow one another by `Step` are the history of a run. */
  lemma {:induction false} HistoryIsLastBefore(evs: seq<Event>, records: seq<Last>, n: nat)
    requires n <= |evs| && |records| == |evs| + 1
    requires forall k :: 0 <= k < |evs| ==> records[k + 1] == Step(records[k], evs[k])
    ensures records[n] == LastBefore(records[0], evs, n)
  {
    if n > 0 {
      HistoryIsLastBefore(evs, records, n - 1);
      assert records[n - 1 + 1] == Step(records[n - 1], evs[n - 1]);
    }
  }

  predicate ReportsAt(last: Last, evs: seq<Event>, i: nat, signature: string)
    requires i < |evs|
  {
    evs[i].Reconciled? && evs[i].p.signature == signature &&
    Reports(LastBefore(last, evs, i), evs[i].p, evs[i].wantsTier)
  }

  /** Something happened that makes the same notice news again: the pod was forgotten, or a pass recorded a
      different (possibly empty) signature. */
  predicate MakesNews(ev: Event, signature: string) {
    match ev
    case Reconciled(p, _) => p.signature != signature && (p.ok || (!p.work && p.signature == ""))
    case Forgotten => true
    case Elsewhere => false
  }

  lemma {:induction false} RecordLasts(last: Last, evs: seq<Event>, i: nat, j: nat, signature: string)
    requires i <= j <= |evs| && signature != "" && LastBefore(last, evs, i) == Some(signature)
    requires forall k :: i <= k < j ==> !MakesNews(evs[k], signature)
    ensures LastBefore(last, evs, j) == Some(signature)
    decreases j - i
  {
    if i < j {
      RecordLasts(last, evs, i, j - 1, signature);
      assert !MakesNews(evs[j - 1], signature);
    }
  }

  /** Over any run, the same notice is reported twice only if the first Apply failed, the pod was forgotten, or
      another or an empty signature was recorded in between. */
  lemma NoDuplicateReports(last: Last, evs: seq<Event>, i: nat, j: nat, signature: string)
    requires i < j < |evs| && ReportsAt(last, evs, i, signature) && ReportsAt(last, evs, j, signature)
    ensures !evs[i].p.ok || exists k :: i < k < j && MakesNews(evs[k], signature)
  {
    if evs[i].p.ok && forall k :: i < k < j ==> !MakesNews(evs[k], signature) {
      assert LastBefore(last, evs, i + 1) == Some(signature);
      RecordLasts(last, evs, i + 1, j, signature);
    }
  }

  /** A report that failed stays due: the next pass with the same notices reports them again, and so does
      every later one until one succeeds, the pod is forgotten or other notices are recorded. */
  lemma {:induction false} FailedReportStaysDue(last: Last, evs: seq<Event>, i: nat, j: nat, signature: string)
    requires i < j < |evs| && ReportsAt(last, evs, i, signature)
    requires forall k :: i <= k < j ==> evs[k].Elsewhere? || FailsWith(evs[k], signature)
    requires evs[j].Reconciled? && evs[j].p.signature == signature
    ensures ReportsAt(last, evs, j, signature)
  {
    RecordStaysAway(last, evs, i, j, signature);
  }

  predicate FailsWith(ev: Event, signature: string) {
    ev.Reconciled? && ev.p.signature == signature && !ev.p.ok
  }

  lemma {:induction false} RecordStaysAway(last: Last, evs: seq<Event>, i: nat, j: nat, signature: string)
    requires i <= j <= |evs| && signature != "" && LastBefore(last, evs, i) != Some(signature)
    requires forall k :: i <= k < j ==> evs[k].Elsewhere? || FailsWith(evs[k], signature)
    ensures LastBefore(last, evs, j) != Some(signature)
    decreases j - i
  {
    if i < j {
      RecordStaysAway(last, evs, i, j - 1, signature);
      assert evs[j - 1].Elsewhere? || FailsWith(evs[j - 1], signature);
    }
  }

  /** What is recorded was reported: behind every record is a pass that was sent to report it and returned without
      an error, with nothing since that makes it news. */
  lemma {:induction false} RecordHasReport(evs: seq<Event>, n: nat, signature: string) returns (i: nat)
    requires n <= |evs| && LastBefore(None, evs, n) == Some(signature)
    ensures i < n && signature != "" && ReportsAt(None, evs, i, signature) && evs[i].p.ok
    ensures forall k :: i < k < n ==> !MakesNews(evs[k], signature)
    decreases n
  {
    if LastBefore(None, evs, n - 1) == Some(signature) {
      i := RecordHasReport(evs, n - 1, signature);
    } else {
      i := n - 1;
    }
  }
}
