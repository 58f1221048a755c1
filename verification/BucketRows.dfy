/** The bucket row's versioning, Object Lock and default retention columns, and the six CHECK
    constraints on them (app/models/bucket.py), under SQL's three-valued logic. */
module BucketRows {
  import opened Text

  datatype Bucket = Bucket(status: string, lockEnabled: bool, mode: Option<string>, days: Option<int>, years: Option<int>)

  const DISABLED := "Disabled"
  const ENABLED := "Enabled"
  const SUSPENDED := "Suspended"
  const GOVERNANCE := "GOVERNANCE"
  const COMPLIANCE := "COMPLIANCE"

  // ---------- three-valued logic ----------

  datatype Truth = True | False | Unknown

  function Of(b: bool): Truth { if b then True else False }

  function And(a: Truth, b: Truth): Truth {
    if a.False? || b.False? then False else if a.True? && b.True? then True else Unknown
  }

  function Or(a: Truth, b: Truth): Truth {
    if a.True? || b.True? then True else if a.False? && b.False? then False else Unknown
  }

  function IsNull<T>(v: Option<T>): Truth { Of(v.None?) }
  function IsNotNull<T>(v: Option<T>): Truth { Of(v.Some?) }
  function Positive(v: Option<int>): Truth { if v.None? then Unknown else Of(v.value > 0) }

  function IsMode(v: Option<string>): Truth {
    if v.None? then Unknown else Of(v.value == GOVERNANCE || v.value == COMPLIANCE)
  }

  // ---------- the constraints ----------

  function StatusCheck(b: Bucket): Truth { Of(b.status == DISABLED || b.status == ENABLED || b.status == SUSPENDED) }
  function DaysCheck(b: Bucket): Truth { Or(IsNull(b.days), Positive(b.days)) }
  function YearsCheck(b: Bucket): Truth { Or(IsNull(b.years), Positive(b.years)) }

  function NoDefault(b: Bucket): Truth { And(And(IsNull(b.mode), IsNull(b.days)), IsNull(b.years)) }

  function RetentionCheck(b: Bucket): Truth {
    Or(NoDefault(b),
       And(IsMode(b.mode), Or(And(IsNotNull(b.days), IsNull(b.years)), And(IsNull(b.days), IsNotNull(b.years)))))
  }

  function LockDefaultCheck(b: Bucket): Truth { Or(Of(b.lockEnabled), NoDefault(b)) }
  function LockVersioningCheck(b: Bucket): Truth { Or(Of(!b.lockEnabled), Of(b.status == ENABLED)) }

  /** A row is accepted unless a constraint is false: one that is unknown does not reject it. */
  predicate Accepted(b: Bucket) {
    && !StatusCheck(b).False? && !DaysCheck(b).False? && !YearsCheck(b).False?
    && !RetentionCheck(b).False? && !LockDefaultCheck(b).False? && !LockVersioningCheck(b).False?
  }

  // ---------- what they mean ----------

  /** No default retention, or a mode with exactly one positive period. */
  predicate WholeDefault(b: Bucket) {
    || (b.mode.None? && b.days.None? && b.years.None?)
    || (b.mode.Some? && (b.mode.value == GOVERNANCE || b.mode.value == COMPLIANCE)
        && ((b.days.Some? && b.days.value > 0 && b.years.None?) || (b.days.None? && b.years.Some? && b.years.value > 0)))
  }

  /** A positive period without a mode, which the retention constraint cannot tell. */
  predicate PeriodWithoutMode(b: Bucket) {
    b.mode.None? && ((b.days.Some? && b.days.value > 0 && b.years.None?) || (b.days.None? && b.years.Some? && b.years.value > 0))
  }

  /** What the constraints accept: a known status, Enabled while locked; a whole default or a period without a mode;
      and either only while locked. */
  lemma AcceptedMeans(b: Bucket)
    ensures Accepted(b) <==>
      && (b.status == DISABLED || b.status == ENABLED || b.status == SUSPENDED)
      && (b.lockEnabled ==> b.status == ENABLED)
      && (WholeDefault(b) || PeriodWithoutMode(b))
      && (!b.lockEnabled ==> b.mode.None? && b.days.None? && b.years.None?)
  {
  }
}
