/** The two independent readers of a `cpu.max` value: the snapshot parser and the guard's canonicaliser. */
module CpuMax {
  import opened Wrappers
  import opened Text

  const MIN_PERIOD: nat := 1_000
  const MAX_PERIOD: nat := 1_000_000
  const UNBOUNDED := "max"

  /** What a `cpu.max` reading means for planning: a finite quota or none. */
  datatype Limit = Unlimited | Finite(quota: nat)

  /** The snapshot parser (parseCPUMaxQuota); `None` is its error. */
  function ParseLimit(raw: string): (r: Option<Limit>) {
    var fields := Fields(raw);
    if |fields| != 2 then None
    else
      var period := ParseUint(fields[1]);
      if period.None? || period.value < MIN_PERIOD || period.value > MAX_PERIOD then None
      else if fields[0] == UNBOUNDED then Some(Unlimited)
      else
        var quota := ParseUint(fields[0]);
        if quota.None? || quota.value < MIN_PERIOD then None else Some(Finite(quota.value))
  }

  /** The guard's canonicaliser (canonicalCPUMax); `None` is its "not ok". */
  function Canonical(value: string, allowMax: bool): (r: Option<string>) {
    var fields := Fields(value);
    if |fields| != 2 then None
    else if fields[0] == UNBOUNDED then
      if !allowMax then None else WithPeriod(fields[0], fields[1])
    else
      var quota := ParseUint(fields[0]);
      if quota.None? || quota.value < MIN_PERIOD then None
      else WithPeriod(FormatUint(quota.value), fields[1])
  }

  function WithPeriod(quotaField: string, periodField: string): (r: Option<string>) {
    var period := ParseUint(periodField);
    if period.None? || period.value < MIN_PERIOD || period.value > MAX_PERIOD then None
    else Some(quotaField + " " + FormatUint(period.value))
  }

  /** The period of an accepted reading, the part the snapshot parser checks and drops. */
  function Period(raw: string): nat
    requires ParseLimit(raw).Some?
  {
    ParseUint(Fields(raw)[1]).value
  }

  function QuotaField(limit: Limit): string {
    if limit.Unlimited? then UNBOUNDED else FormatUint(limit.quota)
  }

  /** The one canonical spelling of a limit and a period. */
  function Spell(limit: Limit, period: nat): string {
    QuotaField(limit) + " " + FormatUint(period)
  }

  lemma SpellFields(limit: Limit, period: nat)
    ensures Fields(Spell(limit, period)) == [QuotaField(limit), FormatUint(period)]
    ensures limit.Finite? ==> QuotaField(limit) != UNBOUNDED
  {
    var q := QuotaField(limit);
    assert limit.Finite? ==> IsDigit(q[0]);
    assert q != [] && SpaceFree(q);
    FieldsOfPair(q, FormatUint(period));
  }

  lemma SpellReadsBack(limit: Limit, period: nat)
    requires MIN_PERIOD <= period <= MAX_PERIOD
    requires limit.Finite? ==> MIN_PERIOD <= limit.quota <= MAX_UINT64
    ensures ParseLimit(Spell(limit, period)) == Some(limit)
    ensures Period(Spell(limit, period)) == period
    ensures Canonical(Spell(limit, period), true) == Some(Spell(limit, period))
  {
    SpellFields(limit, period);
    ParseOfFormat(period);
    if limit.Finite? {
      ParseOfFormat(limit.quota);
    }
  }

  /** What the snapshot parser accepts, exactly: two fields, "max" or a quota of at least 1000, and a period from 1000
      to 1000000. */
  lemma ReadsExactly(raw: string, limit: Limit)
    ensures ParseLimit(raw) == Some(limit) <==>
            && |Fields(raw)| == 2
            && (exists period: nat :: ParseUint(Fields(raw)[1]) == Some(period) && 1000 <= period <= 1000000)
            && match limit
               case Unlimited => Fields(raw)[0] == "max"
               case Finite(quota) =>
                 Fields(raw)[0] != "max" && ParseUint(Fields(raw)[0]) == Some(quota) && quota >= 1000
  {
  }

  /** Which limits and periods can be read at all: a period from 1000 to 1000000, and a quota of at least 1000 that fits
      64 bits, or none. */
  lemma SpellReadsExactly(limit: Limit, period: nat)
    ensures ParseLimit(Spell(limit, period)) ==
            if 1000 <= period <= 1000000 && (limit.Finite? ==> 1000 <= limit.quota <= 0xFFFF_FFFF_FFFF_FFFF)
            then Some(limit) else None
  {
    SpellFields(limit, period);
    ParseOfFormat(period);
    if limit.Finite? {
      ParseOfFormat(limit.quota);
    }
  }

  /** On every string the two readers accept the same inputs, and an accepted input's canonical
      form is the spelling of exactly the limit and the period the snapshot parser saw. */
  lemma ReadersAgree(raw: string)
    ensures ParseLimit(raw).Some? <==> Canonical(raw, true).Some?
    ensures ParseLimit(raw).Some? ==> Canonical(raw, true) == Some(Spell(ParseLimit(raw).value, Period(raw)))
    ensures Canonical(raw, false) ==
            if ParseLimit(raw).Some? && ParseLimit(raw).value.Finite? then Canonical(raw, true) else None
  {
  }

  /** Canonicalisation is idempotent and loses neither the limit nor the period. */
  lemma CanonicalPreservesMeaning(raw: string, allowMax: bool)
    requires Canonical(raw, allowMax).Some?
    ensures var c := Canonical(raw, allowMax).value;
            && Canonical(c, allowMax) == Some(c)
            && ParseLimit(c).Some? && ParseLimit(c) == ParseLimit(raw)
            && Period(c) == Period(raw)
  {
    ReadersAgree(raw);
    var limit := ParseLimit(raw).value;
    SpellReadsBack(limit, Period(raw));
    ReadersAgree(Spell(limit, Period(raw)));
  }

  /** Canonical form decides meaning: two accepted readings share it exactly when they agree on
      both the limit and the period. */
  lemma CanonicalDecidesMeaning(a: string, b: string)
    requires ParseLimit(a).Some? && ParseLimit(b).Some?
    ensures Canonical(a, true) == Canonical(b, true)
       <==> ParseLimit(a) == ParseLimit(b) && Period(a) == Period(b)
  {
    ReadersAgree(a);
    ReadersAgree(b);
    CanonicalPreservesMeaning(a, true);
    CanonicalPreservesMeaning(b, true);
  }
}
