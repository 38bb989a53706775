/** The limit configuration (`Settings`): which of the four checks are switched on and their thresholds.
    A value with ten named fields; each Java getter is the field itself and each setter is a `With…`
    update that changes that field alone. */
module Limits {
  import opened Clock

  /** Java's `int`. */
  type Int32 = x: int | -0x8000_0000 <= x < 0x8000_0000

  datatype Settings = Settings(
    isLimitedTime: bool,
    startLimitedTimeValue: TimeOfDay,
    endLimitedTimeValue: TimeOfDay,
    isCompanyWorkflowLimit: bool,
    companyWorkflowLimitValue: Int32,
    isCompanyCreateDocumentLimit: bool,
    companyCreateDocumentLimitValue: Int32,
    companyCreateDocumentLimitedTimeValue: Int32,  // hours
    isWorkflowLimit: bool,
    workflowLimitValue: Int32)
  {
    function WithLimitedTime(v: bool): (r: Settings)
      ensures r.isLimitedTime == v && r.(isLimitedTime := isLimitedTime) == this
    {
      this.(isLimitedTime := v)
    }

    function WithStartLimitedTimeValue(v: TimeOfDay): (r: Settings)
      ensures r.startLimitedTimeValue == v && r.(startLimitedTimeValue := startLimitedTimeValue) == this
    {
      this.(startLimitedTimeValue := v)
    }

    function WithEndLimitedTimeValue(v: TimeOfDay): (r: Settings)
      ensures r.endLimitedTimeValue == v && r.(endLimitedTimeValue := endLimitedTimeValue) == this
    {
      this.(endLimitedTimeValue := v)
    }

    function WithCompanyWorkflowLimit(v: bool): (r: Settings)
      ensures r.isCompanyWorkflowLimit == v && r.(isCompanyWorkflowLimit := isCompanyWorkflowLimit) == this
    {
      this.(isCompanyWorkflowLimit := v)
    }

    function WithCompanyWorkflowLimitValue(v: Int32): (r: Settings)
      ensures r.companyWorkflowLimitValue == v
      ensures r.(companyWorkflowLimitValue := companyWorkflowLimitValue) == this
    {
      this.(companyWorkflowLimitValue := v)
    }

    function WithCompanyCreateDocumentLimit(v: bool): (r: Settings)
      ensures r.isCompanyCreateDocumentLimit == v
      ensures r.(isCompanyCreateDocumentLimit := isCompanyCreateDocumentLimit) == this
    {
      this.(isCompanyCreateDocumentLimit := v)
    }

    function WithCompanyCreateDocumentLimitValue(v: Int32): (r: Settings)
      ensures r.companyCreateDocumentLimitValue == v
      ensures r.(companyCreateDocumentLimitValue := companyCreateDocumentLimitValue) == this
    {
      this.(companyCreateDocumentLimitValue := v)
    }

    function WithCompanyCreateDocumentLimitedTimeValue(v: Int32): (r: Settings)
      ensures r.companyCreateDocumentLimitedTimeValue == v
      ensures r.(companyCreateDocumentLimitedTimeValue := companyCreateDocumentLimitedTimeValue) == this
    {
      this.(companyCreateDocumentLimitedTimeValue := v)
    }

    function WithWorkflowLimit(v: bool): (r: Settings)
      ensures r.isWorkflowLimit == v && r.(isWorkflowLimit := isWorkflowLimit) == this
    {
      this.(isWorkflowLimit := v)
    }

    function WithWorkflowLimitValue(v: Int32): (r: Settings)
      ensures r.workflowLimitValue == v && r.(workflowLimitValue := workflowLimitValue) == this
    {
      this.(workflowLimitValue := v)
    }
  }

  /** What the private no-argument constructor leaves: every flag off, every number zero
      (the two time strings are `null` in Java; midnight stands for them here). */
  function Blank(): (s: Settings)
    ensures !s.isLimitedTime && !s.isCompanyWorkflowLimit && !s.isCompanyCreateDocumentLimit && !s.isWorkflowLimit
    ensures s.companyWorkflowLimitValue == 0 && s.companyCreateDocumentLimitValue == 0
    ensures s.companyCreateDocumentLimitedTimeValue == 0 && s.workflowLimitValue == 0
  {
    Settings(false, 0, 0, false, 0, false, 0, 0, false, 0)
  }

  /** `createCustomSettings`: the ten setters applied in turn to a blank configuration,
      so each argument ends up in its own field. */
  function CreateCustomSettings(
    isLimitedTime: bool,
    startLimitedTimeValue: TimeOfDay,
    endLimitedTimeValue: TimeOfDay,
    isCompanyWorkflowLimit: bool,
    companyWorkflowLimitValue: Int32,
    isCompanyCreateDocumentLimit: bool,
    companyCreateDocumentLimitValue: Int32,
    companyCreateDocumentLimitedTimeValue: Int32,
    isWorkflowLimit: bool,
    workflowLimitValue: Int32): (s: Settings)
    ensures s.isLimitedTime == isLimitedTime
    ensures s.startLimitedTimeValue == startLimitedTimeValue
    ensures s.endLimitedTimeValue == endLimitedTimeValue
    ensures s.isCompanyWorkflowLimit == isCompanyWorkflowLimit
    ensures s.companyWorkflowLimitValue == companyWorkflowLimitValue
    ensures s.isCompanyCreateDocumentLimit == isCompanyCreateDocumentLimit
    ensures s.companyCreateDocumentLimitValue == companyCreateDocumentLimitValue
    ensures s.companyCreateDocumentLimitedTimeValue == companyCreateDocumentLimitedTimeValue
    ensures s.isWorkflowLimit == isWorkflowLimit
    ensures s.workflowLimitValue == workflowLimitValue
  {
    Blank()
      .WithLimitedTime(isLimitedTime)
      .WithStartLimitedTimeValue(startLimitedTimeValue)
      .WithEndLimitedTimeValue(endLimitedTimeValue)
      .WithCompanyWorkflowLimit(isCompanyWorkflowLimit)
      .WithCompanyWorkflowLimitValue(companyWorkflowLimitValue)
      .WithCompanyCreateDocumentLimit(isCompanyCreateDocumentLimit)
      .WithCompanyCreateDocumentLimitValue(companyCreateDocumentLimitValue)
      .WithCompanyCreateDocumentLimitedTimeValue(companyCreateDocumentLimitedTimeValue)
      .WithWorkflowLimit(isWorkflowLimit)
      .WithWorkflowLimitValue(workflowLimitValue)
  }

  /** `createDefaultSettings`: every check on, window 07:00 to 21:00, all ceilings 10, creation window one hour. */
  function CreateDefaultSettings(): (s: Settings)
    ensures s.isLimitedTime && s.isCompanyWorkflowLimit && s.isCompanyCreateDocumentLimit && s.isWorkflowLimit
    ensures s.startLimitedTimeValue == 7 * SecondsPerHour && s.endLimitedTimeValue == 21 * SecondsPerHour
    ensures s.companyWorkflowLimitValue == 10 && s.workflowLimitValue == 10
    ensures s.companyCreateDocumentLimitValue == 10 && s.companyCreateDocumentLimitedTimeValue == 1
  {
    CreateCustomSettings(true, 7 * SecondsPerHour, 21 * SecondsPerHour, true, 10, true, 10, 1, true, 10)
  }
}
