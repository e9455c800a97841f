/** The role switcher (internal/controller/roles.go): a first-match-wins
    decision from an agent's role, an optional load report and a task intent
    to the role the agent should take. */
module Roles {

  import opened Wrappers
  import opened Proto
  import opened Text

  /** The two thresholds NewRoleSwitcher fixes: 800 MiB of memory, 70 % CPU. */
  const MemoryThreshold: nat := 800 * 1024 * 1024
  const CpuThreshold: real := 70.0

  /** Rule 1's intent class: long-horizon or compilation work. */
  predicate DemotionIntent(upper: string)
  {
    Contains(upper, "LONG_HORIZON") || Contains(upper, "COMPILATION")
  }

  /** Rule 2's intent class: strategic reasoning. */
  predicate PromotionIntent(upper: string)
  {
    Contains(upper, "STRATEGIC_REASONING")
  }

  /** Rule 3: a load was reported and it exceeds a threshold (both strictly). */
  predicate UnderPressure(load: Option<OSResources>)
  {
    load.Some? && (load.value.memoryUsedBytes > MemoryThreshold || load.value.cpuUsagePercent > CpuThreshold)
  }

  /** RoleSwitcher.EvaluateTransition. The agent record is read only for its
      role. The result is Strategic exactly when a Strategic agent meets neither
      rule 1 nor rule 3, or an Operational agent meets rule 2, whatever its load. */
  function EvaluateTransition(role: AgentRole, load: Option<OSResources>, intent: string): (r: AgentRole)
    ensures role == Strategic ==>
              (r == Strategic <==> !DemotionIntent(ToUpper(intent)) && !UnderPressure(load))
    ensures role == Operational ==>
              (r == Strategic <==> PromotionIntent(ToUpper(intent)))
    ensures r == Strategic ==> role == Strategic || PromotionIntent(ToUpper(intent))
  {
    var upper := ToUpper(intent);
    if DemotionIntent(upper) && role == Strategic then Operational
    else if PromotionIntent(upper) && role == Operational then Strategic
    else if UnderPressure(load) then Operational
    else role
  }

  /** If `needle` occurs in `hay`, its upper-cased form occurs in the upper-cased `hay`. */
  lemma {:induction false} ContainsToUpper(hay: string, needle: string)
    requires Contains(hay, needle)
    ensures Contains(ToUpper(hay), ToUpper(needle))
  {
    var i :| OccursAt(hay, needle, i);
    var n := |needle|;
    forall k | 0 <= k < n
      ensures ToUpper(hay)[i..i + n][k] == ToUpper(needle)[k]
    {
      assert hay[i + k] == needle[k];
    }
    assert ToUpper(hay)[i..i + n] == ToUpper(needle);
    assert OccursAt(ToUpper(hay), ToUpper(needle), i);
  }

  /** Intent matching ignores case: an intent and its upper-cased form lead to the same role. */
  lemma IntentCaseInsensitive(role: AgentRole, load: Option<OSResources>, intent: string)
    ensures EvaluateTransition(role, load, ToUpper(intent)) == EvaluateTransition(role, load, intent)
  {
    ToUpperIdempotent(intent);
  }

  /** A Strategic agent whose intent mentions "long_horizon" in any case is demoted,
      whatever its load. */
  lemma LowerCaseLongHorizonDemotes(load: Option<OSResources>, intent: string)
    requires Contains(intent, "long_horizon")
    ensures EvaluateTransition(Strategic, load, intent) == Operational
  {
    ContainsToUpper(intent, "long_horizon");
    UpperLongHorizon();
    assert DemotionIntent(ToUpper(intent));
  }

  /** The lower-case keyword upper-cases to rule 1's keyword. */
  lemma UpperLongHorizon()
    ensures ToUpper("long_horizon") == "LONG_HORIZON"
  {
    var lower, upper := "long_horizon", "LONG_HORIZON";
    forall k | 0 <= k < |lower|
      ensures ToUpper(lower)[k] == upper[k]
    {
    }
  }

  /** The thresholds are strict: exactly 800 MiB at no more than 70 % CPU is no
      pressure, and a Strategic agent without a demotion intent stays Strategic. */
  lemma ThresholdsAreStrict(intent: string, total: nat)
    requires !DemotionIntent(ToUpper(intent))
    ensures !UnderPressure(Some(OSResources(CpuThreshold, MemoryThreshold, total)))
    ensures EvaluateTransition(Strategic, Some(OSResources(CpuThreshold, MemoryThreshold, total)), intent) == Strategic
    ensures EvaluateTransition(Strategic, Some(OSResources(CpuThreshold, MemoryThreshold + 1, total)), intent) == Operational
  {
  }
}
