/** The Applier object: a journal over many pods and the cgroups it writes to. Every method is proved equal
    to the one-pod functions of `Transaction`, and to leave every other pod alone. */
module Applying {
  import opened Wrappers
  import opened Plan
  import opened Transaction
  import Notices

  type Uid = string

  /** The rest of a pass, after the writes already logged. */
  function After(log: seq<Attempt>, r: Result): Result {
    r.(log := log + r.log)
  }

  /** How a call went: it failed before it read the cgroup, found it gone, or read it and ended some way. */
  datatype Call = Broken | Gone | Ran(read: Knobs, end: End)

  function EndOf(call: Call): End {
    match call
    case Broken => Failed
    case Gone => Vanished
    case Ran(_, end) => end
  }

  function CallOn(l: Ledger, broken: bool, end: End): Call {
    if broken then Call.Broken else if l.cg.None? then Call.Gone else Ran(l.cg.value, end)
  }

  /** What goes out: everything that was to be reported, once no write can be retried any more. Whether the quota is
      missing is decided by what the call itself read. */
  function SaidBy(report: bool, notes: seq<Notices.Note>, desired: Tier, call: Call): Option<Notices.Said> {
    if report && call.Ran? && (call.end == Finished || call.end == Swallowed)
    then Some(Notices.Said(notes, QuotaMissing(desired, call.read)))
    else None
  }

  /** One turn of the write loop: the state it leaves, the write it tried, and how the pass ends if it ends here. */
  datatype Turn = Turn(l: Ledger, attempt: Attempt, end: Option<End>)

  function TurnOf(l: Ledger, w: Write, idleWeight: nat, answer: Answer): Turn {
    var reply := WriteReply(l.cg, w, idleWeight, answer);
    var attempt := Attempt(w, l.cg, l.pending, reply.Accepted?);
    match reply
    case Accepted(k) => Turn(Ledger(Some(k), Journaled(l.pending, w)), attempt, None)
    case CgroupGone => Turn(Ledger(None, false), attempt, Some(Vanished))
    case Einval => Turn(l, attempt, Some(if w.SetWeight? then Failed else Swallowed))
    case Error => Turn(l, attempt, Some(Failed))
  }

  lemma ExecuteTakesTurns(l: Ledger, plan: seq<Write>, idleWeight: nat, answers: Answers, i: nat)
    requires plan != [] && answers(i) != Cancelled
    ensures var t := TurnOf(l, plan[0], idleWeight, answers(i));
            Transaction.Execute(l, plan, idleWeight, answers, i) ==
            if t.end.Some? then Result(t.l, [t.attempt], t.end.value)
            else After([t.attempt], Transaction.Execute(t.l, plan[1..], idleWeight, answers, i + 1))
  {
  }

  class Applier {
    const idleWeight: nat
    var pendingRestores: set<Uid>
    var cgroups: map<Uid, Knobs>

    constructor (idleWeight: nat, cgroups: map<Uid, Knobs>)
      ensures this.idleWeight == idleWeight && this.cgroups == cgroups && pendingRestores == {}
    {
      this.idleWeight, this.cgroups, this.pendingRestores := idleWeight, cgroups, {};
    }

    function View(uid: Uid): Ledger
      reads this
    {
      Ledger(if uid in cgroups then Some(cgroups[uid]) else None, uid in pendingRestores)
    }

    /** Every other pod's share is as it was. */
    predicate OthersAre(uid: Uid, pending: set<Uid>, groups: map<Uid, Knobs>)
      reads this
    {
      pendingRestores - {uid} == pending - {uid} && cgroups - {uid} == groups - {uid}
    }

    method NeedsWeightRepair(uid: Uid, snapshot: Knobs, weight: nat) returns (needed: bool)
      modifies this`pendingRestores
      ensures needed == NeedsRepair(old(View(uid)), snapshot, weight)
      ensures View(uid) == Checked(old(View(uid)), snapshot, weight)
      ensures OthersAre(uid, old(pendingRestores), old(cgroups))
    {
      if snapshot.idle || uid !in pendingRestores { return false; }
      if snapshot.weight == weight {
        ForgetPod(uid);
        return false;
      }
      return true;
    }

    method ForgetPod(uid: Uid)
      modifies this`pendingRestores
      ensures View(uid) == old(View(uid)).(pending := false) && OthersAre(uid, old(pendingRestores), old(cgroups))
    {
      pendingRestores := pendingRestores - {uid};
    }

    /** buildPlan. */
    method JournalPlan(uid: Uid, desired: Tier, snapshot: Knobs, weight: nat) returns (plan: seq<Write>)
      modifies this`pendingRestores
      ensures View(uid) == Checked(old(View(uid)), snapshot, weight)
      ensures OthersAre(uid, old(pendingRestores), old(cgroups))
      ensures plan == Transaction.JournalPlan(View(uid), desired, snapshot, weight)
    {
      plan := BuildPlan(desired, snapshot, weight);
      var repair := NeedsWeightRepair(uid, snapshot, weight);
      if repair {
        plan := [SetWeight(weight)] + plan;
      }
    }

    method RecordCompletedWrite(uid: Uid, w: Write)
      modifies this`pendingRestores
      ensures View(uid) == old(View(uid)).(pending := Journaled(old(View(uid)).pending, w))
      ensures uid in pendingRestores <==> w == SetIdle(false) || (uid in old(pendingRestores) && !w.SetWeight?)
      ensures OthersAre(uid, old(pendingRestores), old(cgroups))
    {
      if w == SetIdle(false) {
        pendingRestores := pendingRestores + {uid};
      } else if w.SetWeight? {
        ForgetPod(uid);
      }
    }

    /** One write and what the loop does about its answer. */
    method TryWrite(uid: Uid, w: Write, answer: Answer) returns (attempt: Attempt, end: Option<End>)
      modifies this
      ensures Turn(View(uid), attempt, end) == TurnOf(old(View(uid)), w, idleWeight, answer)
      ensures OthersAre(uid, old(pendingRestores), old(cgroups))
    {
      var here := View(uid);
      var reply := WriteReply(here.cg, w, idleWeight, answer);
      attempt, end := Attempt(w, here.cg, here.pending, reply.Accepted?), None;
      match reply {
        case Accepted(k) =>
          cgroups := cgroups[uid := k];
          RecordCompletedWrite(uid, w);
        case CgroupGone =>
          cgroups := cgroups - {uid};
          ForgetPod(uid);
          end := Some(Vanished);
        case Einval =>
          end := Some(if w.SetWeight? then Failed else Swallowed);
        case Error =>
          end := Some(Failed);
      }
    }

    /** The write loop of Apply and of Revert. */
    method Execute(uid: Uid, plan: seq<Write>, answers: Answers) returns (log: seq<Attempt>, end: End)
      modifies this
      ensures Result(View(uid), log, end) == Transaction.Execute(old(View(uid)), plan, idleWeight, answers, 0)
      ensures OthersAre(uid, old(pendingRestores), old(cgroups))
    {
      ghost var goal := Transaction.Execute(View(uid), plan, idleWeight, answers, 0);
      log := [];
      for i := 0 to |plan|
        invariant OthersAre(uid, old(pendingRestores), old(cgroups))
        invariant goal == After(log, Transaction.Execute(View(uid), plan[i..], idleWeight, answers, i))
      {
        if answers(i) == Cancelled { return log, Failed; }
        ExecuteTakesTurns(View(uid), plan[i..], idleWeight, answers, i);
        assert plan[i..][0] == plan[i] && plan[i..][1..] == plan[i + 1..];
        var attempt, stop := TryWrite(uid, plan[i], answers(i));
        log := log + [attempt];
        if stop.Some? { return log, stop.value; }
      }
      end := Finished;
    }

    /** Apply; `published` is what it told the user, going by the snapshot it read itself. */
    method Apply(uid: Uid, desired: Tier, notes: seq<Notices.Note>, weight: nat, reportNotices: bool, broken: bool,
                 answers: Answers)
      returns (log: seq<Attempt>, end: End, published: Option<Notices.Said>)
      modifies this
      ensures Result(View(uid), log, end) ==
              Transaction.Apply(old(View(uid)), desired, weight, idleWeight, broken, answers)
      ensures OthersAre(uid, old(pendingRestores), old(cgroups))
      ensures var call := CallOn(old(View(uid)), broken, end);
              end == EndOf(call) && published == SaidBy(reportNotices, notes, desired, call)
    {
      if broken { return [], Failed, None; }
      if uid !in cgroups {
        ForgetPod(uid);
        return [], Vanished, None;
      }
      var snapshot := cgroups[uid];
      var plan := JournalPlan(uid, desired, snapshot, weight);
      log, end := Execute(uid, plan, answers);
      if end == Finished && answers(|log|) == Cancelled { return log, Failed, None; }
      published := None;
      if reportNotices && (end == Finished || end == Swallowed) {
        published := Some(ReportApplyNotices(notes, desired, snapshot));
      }
    }

    /** reportApplyNotices: every note, and the missing quota if this snapshot shows it. */
    function ReportApplyNotices(notes: seq<Notices.Note>, desired: Tier, snapshot: Knobs): Notices.Said {
      Notices.Said(notes, desired.burstRequested && desired.burstActive && snapshot.limit.Unlimited?)
    }

    method Revert(uid: Uid, snapshot: Knobs, weight: nat, broken: bool, answers: Answers)
      returns (log: seq<Attempt>, end: End)
      modifies this
      ensures Result(View(uid), log, end) ==
              Transaction.Revert(old(View(uid)), snapshot, weight, idleWeight, broken, answers)
      ensures OthersAre(uid, old(pendingRestores), old(cgroups))
    {
      if broken { return [], Failed; }
      var plan := JournalPlan(uid, NO_TIER, snapshot, weight);
      log, end := Execute(uid, plan, answers);
    }
  }
}
