/** The durable ownership marker: its record, its validity, and its encoding on the API object. */
module Markers {
  import opened Wrappers
  import opened Text
  import opened CpuMax

  const FREEZE := "cgroup.freeze"
  const CPU_MAX := "cpu.max"
  const THAWED := "0"
  const FROZEN := "1"

  /** persistedState: one recorded knob transition. */
  datatype Record = Record(version: int, knob: string, restore: string, suppressed: string)

  /** The only transition this guard makes. */
  const FREEZE_RECORD := Record(2, FREEZE, THAWED, FROZEN)

  /** validateState. */
  predicate Valid(r: Record) {
    if r.version == 2 then
      r.knob == FREEZE && r.restore == THAWED && r.suppressed == FROZEN
    else
      && r.version == 1
      && r.knob == CPU_MAX
      && Canonical(r.restore, true) == Some(r.restore)
      && |r.restore| >= 4 && r.restore[..4] == "max "
      && Canonical(r.suppressed, false) == Some(r.suppressed)
  }

  /** The annotation's bytes. `Json` is any text that decodes to a record; `spelling` tells apart
      texts that decode alike. `Garbage` is text that does not decode at all. */
  datatype Raw = Empty | Json(rec: Record, spelling: nat) | Garbage(bytes: nat)

  /** The bytes the guard itself writes. */
  function Encode(r: Record): Raw {
    Json(r, 0)
  }

  /** Decode and validate; `None` covers absent, undecodable and invalid text alike. */
  function Decode(raw: Raw): (r: Option<Record>)
    ensures r.Some? ==> Valid(r.value)
  {
    if raw.Json? && Valid(raw.rec) then Some(raw.rec) else None
  }

  predicate MarksFreeze(raw: Raw) {
    Decode(raw) == Some(FREEZE_RECORD)
  }

  /** validateState, in plain text: the freeze of cgroup.freeze from "0" to "1", or a version 1 throttle of cpu.max from
      "max" and a period to a quota and a period, all in range and canonical. */
  lemma ValidExactly(r: Record)
    ensures Valid(r) <==>
            || r == Record(2, "cgroup.freeze", "0", "1")
            || (r.version == 1 && r.knob == "cpu.max" && IsUnbounded(r.restore) && IsThrottle(r.suppressed))
  {
    UnboundedIsCanonical(r.restore);
    ThrottleIsCanonical(r.suppressed);
  }

  lemma UnboundedIsCanonical(s: string)
    ensures IsUnbounded(s) <==> Canonical(s, true) == Some(s) && |s| >= 4 && s[..4] == "max "
  {
    if p: nat :| 1000 <= p <= 1000000 && s == "max " + FormatUint(p) {
      assert s == Spell(Unlimited, p);
      SpellReadsBack(Unlimited, p);
    }
    if Canonical(s, true) == Some(s) && |s| >= 4 && s[..4] == "max " {
      ReadersAgree(s);
      var limit := ParseLimit(s).value;
      assert s[0] == s[..4][0] == 'm';
      SpellStarts(limit, Period(s));
      SpellReadsExactly(limit, Period(s));
    }
  }

  lemma SpellStarts(limit: Limit, period: nat)
    ensures |Spell(limit, period)| >= 1 && (limit.Finite? <==> IsDigit(Spell(limit, period)[0]))
  {
    assert limit.Finite? ==> Spell(limit, period)[0] == FormatUint(limit.quota)[0];
  }

  lemma ThrottleIsCanonical(s: string)
    ensures IsThrottle(s) <==> Canonical(s, false) == Some(s)
  {
    ReadersAgree(s);
    if q: nat, p: nat :| Throttles(s, q, p) {
      assert s == Spell(Finite(q), p);
      SpellReadsBack(Finite(q), p);
    }
    if Canonical(s, false) == Some(s) {
      var limit, period := ParseLimit(s).value, Period(s);
      SpellReadsExactly(limit, period);
      assert Throttles(s, limit.quota, period);
    }
  }

  ghost predicate IsUnbounded(s: string) {
    exists p: nat :: 1000 <= p <= 1000000 && s == "max " + FormatUint(p)
  }

  predicate Throttles(s: string, quota: nat, period: nat) {
    && 1000 <= quota <= 0xFFFF_FFFF_FFFF_FFFF && 1000 <= period <= 1000000
    && s == FormatUint(quota) + " " + FormatUint(period)
  }

  ghost predicate IsThrottle(s: string) {
    exists q: nat, p: nat :: Throttles(s, q, p)
  }

  /** A valid record is this guard's freeze, or a legacy one that takes a finite `cpu.max` back to
      an unbounded one of a legal period. No valid record can do anything else to a knob. */
  lemma ValidRecords(r: Record)
    requires Valid(r)
    ensures r == FREEZE_RECORD || (r.version == 1 && r.knob == CPU_MAX)
    ensures r.version == 1 ==>
              && ParseLimit(r.restore) == Some(Unlimited)
              && r.restore == Spell(Unlimited, Period(r.restore))
              && ParseLimit(r.suppressed).Some? && ParseLimit(r.suppressed).value.Finite?
              && r.restore != r.suppressed
  {
    if r.version == 1 {
      ReadersAgree(r.restore);
      ReadersAgree(r.suppressed);
      assert r.restore[0] == r.restore[..4][0] == 'm';
      SpellStarts(ParseLimit(r.restore).value, Period(r.restore));
    }
  }
}
