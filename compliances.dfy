/** The static compliance-rule table and the rule matcher that filters it by
    annual turnover and employee count (src/data/mockCompliances.ts). */
module Compliances {
  import opened Wrappers

  /** The four risk levels a rule may declare (src/components/RiskBadge.tsx). */
  datatype RiskLevel = Critical | High | Medium | Low

  /** A rule of the table: eight display fields and four optional inclusive
      thresholds. An absent threshold constrains nothing. */
  datatype ComplianceRule = ComplianceRule(
    id: string,
    name: string,
    reason: string,
    deadline: string,
    riskLevel: RiskLevel,
    penaltyPreview: string,
    penaltyExplanation: string,
    plainExplanation: string,
    minTurnover: Option<real>,
    maxTurnover: Option<real>,
    minEmployees: Option<real>,
    maxEmployees: Option<real>)

  /** What the matcher returns for a rule: its eight display fields only. */
  datatype ComplianceData = ComplianceData(
    id: string,
    name: string,
    reason: string,
    deadline: string,
    riskLevel: RiskLevel,
    penaltyPreview: string,
    penaltyExplanation: string,
    plainExplanation: string)

  const GstRegistration: ComplianceRule := ComplianceRule(
    "gst-registration",
    "GST Registration",
    "Your turnover exceeds ₹40 lakhs (threshold for goods)",
    "Within 30 days of crossing threshold",
    Critical,
    "Penalty up to ₹25,000",
    "If you don't register for GST within 30 days, you could face a penalty of ₹10,000 or 10% of tax due (whichever is higher). Repeated non-compliance can lead to penalties up to ₹25,000.",
    "GST is a tax on sales. If your business earns more than ₹40 lakhs per year, you must register with the government and charge GST on your sales. This money goes to the government, not your pocket.",
    Some(4000000.0), None, None, None)

  const PfRegistration: ComplianceRule := ComplianceRule(
    "pf-registration",
    "Provident Fund (EPF) Registration",
    "You have 20 or more employees",
    "Within 1 month of reaching 20 employees",
    Critical,
    "Penalty up to ₹5 lakh + imprisonment",
    "Failure to register can result in penalties up to ₹5 lakh. Continued non-compliance may lead to imprisonment for up to 3 years. You'll also owe interest on delayed contributions.",
    "PF is like a savings account for your employees' retirement. Both you and your employees contribute a small amount each month. It's their money for later, and you're required by law to set this up.",
    None, None, Some(20.0), None)

  const EsiRegistration: ComplianceRule := ComplianceRule(
    "esi-registration",
    "ESI Registration",
    "You have 10 or more employees with salary under ₹21,000/month",
    "Within 15 days of becoming applicable",
    High,
    "Penalty of 12% interest + damages",
    "Late registration attracts 12% annual interest on unpaid contributions. Additional damages up to 25% of arrears may be imposed. Directors can face personal liability.",
    "ESI is health insurance for your employees. It covers medical expenses, maternity benefits, and disability support. You and your employees share the cost, and it protects them when they're sick.",
    None, None, Some(10.0), None)

  const ProfessionalTax: ComplianceRule := ComplianceRule(
    "professional-tax",
    "Professional Tax Registration",
    "Applicable in most Indian states for employers",
    "Before hiring first employee",
    Medium,
    "Penalty of ₹5 per day",
    "Non-payment attracts a penalty of ₹5 per day of default in most states. Some states charge higher penalties and may suspend business licenses.",
    "Professional Tax is a small state-level tax. It's deducted from employee salaries (usually ₹200/month max). As an employer, you need to register and submit this to the state government.",
    None, None, Some(1.0), None)

  const ShopsEstablishment: ComplianceRule := ComplianceRule(
    "shops-establishment",
    "Shops & Establishment Act Registration",
    "Required for all commercial establishments",
    "Within 30 days of starting business",
    Medium,
    "Fine up to ₹10,000",
    "Operating without registration can result in fines up to ₹10,000. Repeat offenses may lead to closure of establishment by local authorities.",
    "This is your official license to run a shop or office. It sets rules about working hours, holidays, and employee rights. Think of it as your business's basic permit to operate.",
    None, None, Some(1.0), None)

  const TdsCompliance: ComplianceRule := ComplianceRule(
    "tds-compliance",
    "TDS Compliance",
    "Required if turnover exceeds ₹1 crore",
    "7th of each month",
    Critical,
    "Interest + penalty equal to TDS amount",
    "Late payment attracts 1.5% interest per month. Failure to file returns can result in penalties equal to the TDS amount. Prosecution may follow for willful defaults.",
    "TDS means you deduct some tax from payments you make (like salaries or contractor fees) and send it directly to the government. It's collecting tax on behalf of the government.",
    Some(10000000.0), None, None, None)

  const LabourWelfareFund: ComplianceRule := ComplianceRule(
    "labour-welfare-fund",
    "Labour Welfare Fund",
    "Applicable in most states for establishments with employees",
    "30th June and 31st December each year",
    Low,
    "Fine up to ₹5,000",
    "Non-contribution attracts penalties up to ₹5,000 depending on the state. Some states may charge additional interest on delayed payments.",
    "This is a small fund (usually ₹6-₹20 per employee per month) that goes toward worker welfare programs like education and housing for laborers.",
    None, None, Some(5.0), None)

  const TaxAudit: ComplianceRule := ComplianceRule(
    "audit-requirement",
    "Tax Audit Requirement",
    "Turnover exceeds ₹1 crore (₹10 crore if 95% digital)",
    "30th September each year",
    High,
    "Penalty of 0.5% of turnover",
    "Failure to get audit done attracts 0.5% of turnover as penalty, up to ₹1.5 lakh. This is in addition to interest on any tax shortfall discovered.",
    "A tax audit is when a professional accountant checks your books to make sure everything is correct. It's mandatory for bigger businesses to ensure they're paying the right taxes.",
    Some(10000000.0), None, None, None)

  const Gratuity: ComplianceRule := ComplianceRule(
    "gratuity",
    "Gratuity Payment Act",
    "Applicable to establishments with 10+ employees",
    "Within 30 days of employee leaving (after 5 years)",
    Medium,
    "Simple interest + penalty up to ₹20,000",
    "Delayed payment attracts simple interest at 10% per annum. Employers may face additional penalties up to ₹20,000 and imprisonment up to 2 years for willful default.",
    "Gratuity is a thank-you payment to employees who work with you for 5+ years. When they leave, you owe them about 15 days' salary for each year they worked.",
    None, None, Some(10.0), None)

  const MsmeRegistration: ComplianceRule := ComplianceRule(
    "msme-registration",
    "MSME Udyam Registration",
    "Recommended for all MSMEs to avail government benefits",
    "No strict deadline (voluntary but beneficial)",
    Low,
    "No penalty, but you miss benefits",
    "While not mandatory, without Udyam registration you cannot access government schemes, priority sector lending, subsidy benefits, and protection under MSMED Act.",
    "Udyam is a free government registration for small businesses. It opens doors to loans with lower interest, government tenders, and subsidies. There's no penalty, but you're missing out on benefits.",
    Some(0.0), Some(2500000000.0), Some(0.0), None)

  /** The table, in the order the matcher visits it. */
  const ComplianceRules: seq<ComplianceRule> := [
    GstRegistration, PfRegistration, EsiRegistration, ProfessionalTax, ShopsEstablishment,
    TdsCompliance, LabourWelfareFund, TaxAudit, Gratuity, MsmeRegistration]

  // ---------------------------------------------------------------------------
  // The matcher

  /** `x` meets an optional inclusive lower bound. */
  predicate AtLeast(x: real, bound: Option<real>)
  {
    bound.None? || x >= bound.value
  }

  /** `x` meets an optional inclusive upper bound. */
  predicate AtMost(x: real, bound: Option<real>)
  {
    bound.None? || x <= bound.value
  }

  /** The filter predicate of the matcher: all present bounds hold. */
  predicate Applies(rule: ComplianceRule, turnover: real, employees: real)
  {
    AtLeast(turnover, rule.minTurnover) && AtMost(turnover, rule.maxTurnover) &&
    AtLeast(employees, rule.minEmployees) && AtMost(employees, rule.maxEmployees)
  }

  /** Reattaches thresholds to a display record; the inverse of `ToData`. */
  function WithThresholds(d: ComplianceData, minTurnover: Option<real>, maxTurnover: Option<real>,
                          minEmployees: Option<real>, maxEmployees: Option<real>): ComplianceRule
  {
    ComplianceRule(d.id, d.name, d.reason, d.deadline, d.riskLevel, d.penaltyPreview,
                   d.penaltyExplanation, d.plainExplanation,
                   minTurnover, maxTurnover, minEmployees, maxEmployees)
  }

  /** The projection applied to every kept rule: the display fields are copied
      unchanged, so putting the rule's own thresholds back gives the rule. */
  function ToData(rule: ComplianceRule): (d: ComplianceData)
    ensures WithThresholds(d, rule.minTurnover, rule.maxTurnover, rule.minEmployees, rule.maxEmployees) == rule
  {
    ComplianceData(rule.id, rule.name, rule.reason, rule.deadline, rule.riskLevel,
                   rule.penaltyPreview, rule.penaltyExplanation, rule.plainExplanation)
  }

  /** The part one rule contributes to the matcher's result. */
  function Keep(rule: ComplianceRule, turnover: real, employees: real): seq<ComplianceData>
  {
    if Applies(rule, turnover, employees) then [ToData(rule)] else []
  }

  /** Filter-then-project over any rule table, keeping table order (stated
      on the last rule, so that positions in the prefix stay put). */
  function Select(rules: seq<ComplianceRule>, turnover: real, employees: real): seq<ComplianceData>
  {
    if rules == [] then []
    else
      var n := |rules| - 1;
      Select(rules[..n], turnover, employees) + Keep(rules[n], turnover, employees)
  }

  /** No two rules of a table share an id. */
  predicate UniqueIds(rules: seq<ComplianceRule>)
  {
    forall i, j :: 0 <= i < j < |rules| ==> rules[i].id != rules[j].id
  }

  /** The positions of the rules that apply, in increasing order: the
      reference definition of which rules the matcher keeps. */
  function MatchingIndices(rules: seq<ComplianceRule>, turnover: real, employees: real): (idx: seq<nat>)
    ensures forall k :: 0 <= k < |idx| ==> idx[k] < |rules| && Applies(rules[idx[k]], turnover, employees)
    ensures forall k, m :: 0 <= k < m < |idx| ==> idx[k] < idx[m]
    ensures forall i :: 0 <= i < |rules| && Applies(rules[i], turnover, employees) ==> i in idx
  {
    if rules == [] then []
    else
      var n := |rules| - 1;
      MatchingIndices(rules[..n], turnover, employees)
      + (if Applies(rules[n], turnover, employees) then [n] else [])
  }

  /** The matcher of the application: the rules of the table that apply to
      `turnover` and `employees`, projected to their display fields. A table
      rule is in the result iff each of its present bounds holds, and the
      result lists the matching rules in table order. */
  function GetApplicableCompliances(turnover: real, employees: real): (result: seq<ComplianceData>)
    ensures forall i :: 0 <= i < |ComplianceRules| ==>
      (ToData(ComplianceRules[i]) in result <==> Applies(ComplianceRules[i], turnover, employees))
    ensures var idx := MatchingIndices(ComplianceRules, turnover, employees);
      |result| == |idx| && forall k :: 0 <= k < |idx| ==> result[k] == ToData(ComplianceRules[idx[k]])
  {
    TableIdsUnique();
    SelectIsOrderedProjection(ComplianceRules, turnover, employees);
    forall i | 0 <= i < |ComplianceRules|
      ensures ToData(ComplianceRules[i]) in Select(ComplianceRules, turnover, employees)
        <==> Applies(ComplianceRules[i], turnover, employees)
    {
      SelectMembership(ComplianceRules, turnover, employees, i);
    }
    Select(ComplianceRules, turnover, employees)
  }

  // ---------------------------------------------------------------------------
  // Properties of the matcher over any table

  /** The result is exactly the projections of the matching rules, in table
      order: an ordered subsequence, nothing reordered or repeated. */
  lemma {:induction false} SelectIsOrderedProjection(rules: seq<ComplianceRule>, turnover: real, employees: real)
    ensures var idx := MatchingIndices(rules, turnover, employees);
      |Select(rules, turnover, employees)| == |idx| &&
      forall k :: 0 <= k < |idx| ==> Select(rules, turnover, employees)[k] == ToData(rules[idx[k]])
  {
    if rules != [] {
      var n := |rules| - 1;
      SelectIsOrderedProjection(rules[..n], turnover, employees);
      var idx := MatchingIndices(rules[..n], turnover, employees);
      forall k | 0 <= k < |idx| ensures rules[..n][idx[k]] == rules[idx[k]] { }
    }
  }

  /** With unique ids, a rule's projection is in the result iff the rule applies. */
  lemma {:induction false} SelectMembership(rules: seq<ComplianceRule>, turnover: real, employees: real, i: nat)
    requires UniqueIds(rules)
    requires i < |rules|
    ensures ToData(rules[i]) in Select(rules, turnover, employees) <==> Applies(rules[i], turnover, employees)
  {
    var idx := MatchingIndices(rules, turnover, employees);
    var r := Select(rules, turnover, employees);
    SelectIsOrderedProjection(rules, turnover, employees);
    if ToData(rules[i]) in r {
      var k :| 0 <= k < |r| && r[k] == ToData(rules[i]);
      assert rules[idx[k]].id == rules[i].id;
      assert idx[k] == i;
    }
    if Applies(rules[i], turnover, employees) {
      var k :| 0 <= k < |idx| && idx[k] == i;
      assert r[k] == ToData(rules[i]);
    }
  }

  /** A rule with no upper bounds stays applicable when turnover and employee
      count grow. */
  lemma LowerBoundsOnlyMonotone(rule: ComplianceRule, turnover: real, employees: real,
                                turnover': real, employees': real)
    requires rule.maxTurnover.None? && rule.maxEmployees.None?
    requires Applies(rule, turnover, employees)
    requires turnover <= turnover' && employees <= employees'
    ensures Applies(rule, turnover', employees')
  {
  }

  // ---------------------------------------------------------------------------
  // Properties of the table

  lemma TableIdsUnique()
    ensures UniqueIds(ComplianceRules)
  {
  }

  /** Every rule that has both bounds on a quantity has them in order. */
  lemma TableBoundsOrdered()
    ensures forall rule :: rule in ComplianceRules ==>
      (rule.minTurnover.Some? && rule.maxTurnover.Some? ==> rule.minTurnover.value <= rule.maxTurnover.value) &&
      (rule.minEmployees.Some? && rule.maxEmployees.Some? ==> rule.minEmployees.value <= rule.maxEmployees.value)
  {
  }

  /** Only MSME Udyam Registration has an upper bound; every other rule
      has lower bounds only. */
  lemma OnlyMsmeHasUpperBound(i: nat)
    requires i < |ComplianceRules|
    ensures ComplianceRules[i].maxTurnover.Some? || ComplianceRules[i].maxEmployees.Some?
        <==> ComplianceRules[i] == MsmeRegistration
  {
  }

  /** Raising turnover or employee count never drops a rule that has lower
      bounds only. */
  lemma MatchMonotone(i: nat, turnover: real, employees: real, turnover': real, employees': real)
    requires i < |ComplianceRules| && ComplianceRules[i] != MsmeRegistration
    requires ToData(ComplianceRules[i]) in GetApplicableCompliances(turnover, employees)
    requires turnover <= turnover' && employees <= employees'
    ensures ToData(ComplianceRules[i]) in GetApplicableCompliances(turnover', employees')
  {
    OnlyMsmeHasUpperBound(i);
    LowerBoundsOnlyMonotone(ComplianceRules[i], turnover, employees, turnover', employees');
  }

  /** GST Registration applies exactly from a turnover of 4000000 on, whatever
      the employee count. */
  lemma GstTurnoverBoundary(turnover: real, employees: real)
    ensures ToData(GstRegistration) in GetApplicableCompliances(turnover, employees) <==> turnover >= 4000000.0
  {
    assert ComplianceRules[0] == GstRegistration;
  }

  /** ESI Registration is gated by the employee count alone: the salary
      condition in its reason text is not encoded. */
  lemma EsiOnlyByEmployees(turnover: real, employees: real)
    ensures ToData(EsiRegistration) in GetApplicableCompliances(turnover, employees) <==> employees >= 10.0
  {
    assert ComplianceRules[2] == EsiRegistration;
  }

  /** A turnover above 2500000000 excludes MSME Udyam Registration. */
  lemma MsmeTurnoverCap(turnover: real, employees: real)
    requires turnover > 2500000000.0
    ensures ToData(MsmeRegistration) !in GetApplicableCompliances(turnover, employees)
  {
    assert ComplianceRules[9] == MsmeRegistration;
  }

  /** One more rule of the table appends what that rule contributes. */
  lemma TableStep(k: nat, turnover: real, employees: real)
    requires k < |ComplianceRules|
    ensures Select(ComplianceRules[..k + 1], turnover, employees) ==
      Select(ComplianceRules[..k], turnover, employees) + Keep(ComplianceRules[k], turnover, employees)
  {
    assert ComplianceRules[..k + 1][..k] == ComplianceRules[..k];
  }

  // The three scenarios below evaluate the matcher rule by rule; each is
  // split into prefixes of the table so that every proof stays small.

  lemma NothingButMsmeAtZeroUpto4()
    ensures Select(ComplianceRules[..4], 0.0, 0.0) ==
      []
  {
    var rs := ComplianceRules;
    var t, e := 0.0, 0.0;
    assert rs[..0] == [];
    TableStep(0, t, e);
    assert Select(rs[..1], t, e) == [];
    TableStep(1, t, e);
    assert Select(rs[..2], t, e) == [];
    TableStep(2, t, e);
    assert Select(rs[..3], t, e) == [];
    TableStep(3, t, e);
    assert Select(rs[..4], t, e) == [];
  }

  lemma NothingButMsmeAtZeroUpto7()
    ensures Select(ComplianceRules[..7], 0.0, 0.0) ==
      []
  {
    var rs := ComplianceRules;
    var t, e := 0.0, 0.0;
    NothingButMsmeAtZeroUpto4();
    TableStep(4, t, e);
    assert Select(rs[..5], t, e) == [];
    TableStep(5, t, e);
    assert Select(rs[..6], t, e) == [];
    TableStep(6, t, e);
    assert Select(rs[..7], t, e) == [];
  }

  /** With no turnover and no employees only MSME Udyam Registration applies. */
  lemma NothingButMsmeAtZero()
    ensures GetApplicableCompliances(0.0, 0.0) ==
      [ToData(MsmeRegistration)]
  {
    var rs := ComplianceRules;
    var t, e := 0.0, 0.0;
    NothingButMsmeAtZeroUpto7();
    TableStep(7, t, e);
    assert Select(rs[..8], t, e) == [];
    TableStep(8, t, e);
    assert Select(rs[..9], t, e) == [];
    TableStep(9, t, e);
    assert Select(rs[..10], t, e) == [ToData(MsmeRegistration)];
    assert rs[..10] == rs;
  }

  lemma SmallEmployerScenarioUpto4()
    ensures Select(ComplianceRules[..4], 5000000.0, 25.0) ==
      [ToData(GstRegistration), ToData(PfRegistration), ToData(EsiRegistration),
       ToData(ProfessionalTax)]
  {
    var rs := ComplianceRules;
    var t, e := 5000000.0, 25.0;
    assert rs[..0] == [];
    TableStep(0, t, e);
    assert Select(rs[..1], t, e) == [ToData(GstRegistration)];
    TableStep(1, t, e);
    assert Select(rs[..2], t, e) == [ToData(GstRegistration), ToData(PfRegistration)];
    TableStep(2, t, e);
    assert Select(rs[..3], t, e) == [ToData(GstRegistration), ToData(PfRegistration), ToData(EsiRegistration)];
    TableStep(3, t, e);
    assert Select(rs[..4], t, e) == [ToData(GstRegistration), ToData(PfRegistration), ToData(EsiRegistration), ToData(ProfessionalTax)];
  }

  lemma SmallEmployerScenarioUpto7()
    ensures Select(ComplianceRules[..7], 5000000.0, 25.0) ==
      [ToData(GstRegistration), ToData(PfRegistration), ToData(EsiRegistration),
       ToData(ProfessionalTax), ToData(ShopsEstablishment), ToData(LabourWelfareFund)]
  {
    var rs := ComplianceRules;
    var t, e := 5000000.0, 25.0;
    SmallEmployerScenarioUpto4();
    TableStep(4, t, e);
    assert Select(rs[..5], t, e) == [ToData(GstRegistration), ToData(PfRegistration), ToData(EsiRegistration), ToData(ProfessionalTax), ToData(ShopsEstablishment)];
    TableStep(5, t, e);
    assert Select(rs[..6], t, e) == [ToData(GstRegistration), ToData(PfRegistration), ToData(EsiRegistration), ToData(ProfessionalTax), ToData(ShopsEstablishment)];
    TableStep(6, t, e);
    assert Select(rs[..7], t, e) == [ToData(GstRegistration), ToData(PfRegistration), ToData(EsiRegistration), ToData(ProfessionalTax), ToData(ShopsEstablishment), ToData(LabourWelfareFund)];
  }

  /** A business with turnover 5000000 and 25 employees: everything but TDS
      and the tax audit. */
  lemma SmallEmployerScenario()
    ensures GetApplicableCompliances(5000000.0, 25.0) ==
      [ToData(GstRegistration), ToData(PfRegistration), ToData(EsiRegistration),
       ToData(ProfessionalTax), ToData(ShopsEstablishment), ToData(LabourWelfareFund),
       ToData(Gratuity), ToData(MsmeRegistration)]
  {
    var rs := ComplianceRules;
    var t, e := 5000000.0, 25.0;
    SmallEmployerScenarioUpto7();
    TableStep(7, t, e);
    assert Select(rs[..8], t, e) == [ToData(GstRegistration), ToData(PfRegistration), ToData(EsiRegistration), ToData(ProfessionalTax), ToData(ShopsEstablishment), ToData(LabourWelfareFund)];
    TableStep(8, t, e);
    assert Select(rs[..9], t, e) == [ToData(GstRegistration), ToData(PfRegistration), ToData(EsiRegistration), ToData(ProfessionalTax), ToData(ShopsEstablishment), ToData(LabourWelfareFund), ToData(Gratuity)];
    TableStep(9, t, e);
    assert Select(rs[..10], t, e) == [ToData(GstRegistration), ToData(PfRegistration), ToData(EsiRegistration), ToData(ProfessionalTax), ToData(ShopsEstablishment), ToData(LabourWelfareFund), ToData(Gratuity), ToData(MsmeRegistration)];
    assert rs[..10] == rs;
  }

  lemma LargeTurnoverScenarioUpto4()
    ensures Select(ComplianceRules[..4], 100000000.0, 25.0) ==
      [ToData(GstRegistration), ToData(PfRegistration), ToData(EsiRegistration),
       ToData(ProfessionalTax)]
  {
    var rs := ComplianceRules;
    var t, e := 100000000.0, 25.0;
    assert rs[..0] == [];
    TableStep(0, t, e);
    assert Select(rs[..1], t, e) == [ToData(GstRegistration)];
    TableStep(1, t, e);
    assert Select(rs[..2], t, e) == [ToData(GstRegistration), ToData(PfRegistration)];
    TableStep(2, t, e);
    assert Select(rs[..3], t, e) == [ToData(GstRegistration), ToData(PfRegistration), ToData(EsiRegistration)];
    TableStep(3, t, e);
    assert Select(rs[..4], t, e) == [ToData(GstRegistration), ToData(PfRegistration), ToData(EsiRegistration), ToData(ProfessionalTax)];
  }

  lemma LargeTurnoverScenarioUpto7()
    ensures Select(ComplianceRules[..7], 100000000.0, 25.0) ==
      [ToData(GstRegistration), ToData(PfRegistration), ToData(EsiRegistration),
       ToData(ProfessionalTax), ToData(ShopsEstablishment), ToData(TdsCompliance),
       ToData(LabourWelfareFund)]
  {
    var rs := ComplianceRules;
    var t, e := 100000000.0, 25.0;
    LargeTurnoverScenarioUpto4();
    TableStep(4, t, e);
    assert Select(rs[..5], t, e) == [ToData(GstRegistration), ToData(PfRegistration), ToData(EsiRegistration), ToData(ProfessionalTax), ToData(ShopsEstablishment)];
    TableStep(5, t, e);
    assert Select(rs[..6], t, e) == [ToData(GstRegistration), ToData(PfRegistration), ToData(EsiRegistration), ToData(ProfessionalTax), ToData(ShopsEstablishment), ToData(TdsCompliance)];
    TableStep(6, t, e);
    assert Select(rs[..7], t, e) == [ToData(GstRegistration), ToData(PfRegistration), ToData(EsiRegistration), ToData(ProfessionalTax), ToData(ShopsEstablishment), ToData(TdsCompliance), ToData(LabourWelfareFund)];
  }

  /** A business with turnover 100000000 and 25 employees: TDS and the tax
      audit apply too, so every rule of the table applies. */
  lemma LargeTurnoverScenario()
    ensures GetApplicableCompliances(100000000.0, 25.0) ==
      [ToData(GstRegistration), ToData(PfRegistration), ToData(EsiRegistration),
       ToData(ProfessionalTax), ToData(ShopsEstablishment), ToData(TdsCompliance),
       ToData(LabourWelfareFund), ToData(TaxAudit), ToData(Gratuity), ToData(MsmeRegistration)]
  {
    var rs := ComplianceRules;
    var t, e := 100000000.0, 25.0;
    LargeTurnoverScenarioUpto7();
    TableStep(7, t, e);
    assert Select(rs[..8], t, e) == [ToData(GstRegistration), ToData(PfRegistration), ToData(EsiRegistration), ToData(ProfessionalTax), ToData(ShopsEstablishment), ToData(TdsCompliance), ToData(LabourWelfareFund), ToData(TaxAudit)];
    TableStep(8, t, e);
    assert Select(rs[..9], t, e) == [ToData(GstRegistration), ToData(PfRegistration), ToData(EsiRegistration), ToData(ProfessionalTax), ToData(ShopsEstablishment), ToData(TdsCompliance), ToData(LabourWelfareFund), ToData(TaxAudit), ToData(Gratuity)];
    TableStep(9, t, e);
    assert Select(rs[..10], t, e) == [ToData(GstRegistration), ToData(PfRegistration), ToData(EsiRegistration), ToData(ProfessionalTax), ToData(ShopsEstablishment), ToData(TdsCompliance), ToData(LabourWelfareFund), ToData(TaxAudit), ToData(Gratuity), ToData(MsmeRegistration)];
    assert rs[..10] == rs;
  }
}
