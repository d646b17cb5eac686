/** The fixed vocabularies shared by the backend and the frontend:
    departments (with the labels the department picker shows), roles and
    ticket statuses. */
module Constants {

  const Departments: seq<string> := [
    "ISE", "CSE", "AIML", "BT", "CV", "ME", "ETE", "EIE", "ECE", "ASE",
    "IDRC", "LIB", "CMT", "MCA", "ADMIN_BLOCK", "CHEM", "PHY", "MATH"
  ]

  datatype DepartmentOption = DepartmentOption(value: string, caption: string)

  /** The picker's entries as (code, name) pairs, in picker order. */
  const OptionNames: seq<(string, string)> := [
    ("CSE", "Computer Science and Engineering"),
    ("ISE", "Information Science and Engineering"),
    ("AIML", "Artificial Intelligence and Machine Learning"),
    ("BT", "Biotechnology"),
    ("CV", "Civil"),
    ("ME", "Mechanical Engineering"),
    ("ETE", "Electronics and Telecommunication Engineering"),
    ("EIE", "Electronics and Instrumentation Engineering"),
    ("ECE", "Electronics and Communication Engineering"),
    ("ASE", "Aerospace Engineering"),
    ("IDRC", "IDRC"),
    ("LIB", "Library"),
    ("CMT", "Central Maintenance"),
    ("MCA", "Masters of Computer Applications"),
    ("ADMIN_BLOCK", "Admin Block"),
    ("CHEM", "Chemical Engineering"),
    ("PHY", "Physics Department"),
    ("MATH", "Mathematics Department")
  ]

  /** Each picker entry's caption is its code, " - " and the name. */
  const DepartmentOptions: seq<DepartmentOption> :=
    seq(|OptionNames|, i requires 0 <= i < |OptionNames| =>
      DepartmentOption(OptionNames[i].0, OptionNames[i].0 + " - " + OptionNames[i].1))

  const Roles: seq<string> := ["TECHNICIAN", "ADMIN", "COORDINATOR"]

  const Statuses: seq<string> := ["OPEN", "IN_PROGRESS", "CLOSED"]

  predicate Distinct<T(==)>(s: seq<T>) {
    forall i, j :: 0 <= i < j < |s| ==> s[i] != s[j]
  }

  function OptionValues(opts: seq<DepartmentOption>): (r: seq<string>)
    ensures |r| == |opts|
    ensures forall i :: 0 <= i < |opts| ==> r[i] == opts[i].value
  {
    seq(|opts|, i requires 0 <= i < |opts| => opts[i].value)
  }

  /** Eighteen department codes, no code listed twice. */
  lemma DepartmentsAreDistinct()
    ensures |Departments| == 18 && Distinct(Departments)
  {
  }

  /** No department code is the empty string (so each is truthy). */
  lemma DepartmentsNonEmpty()
    ensures forall d | d in Departments :: d != ""
  {
  }

  /** The picker lists the department codes with the first two swapped. */
  lemma OptionValuesSwapFirstTwo()
    ensures OptionValues(DepartmentOptions) == [Departments[1], Departments[0]] + Departments[2..]
  {
  }

  /** The picker offers every department exactly once and nothing else. */
  lemma OptionsCoverDepartments()
    ensures Distinct(OptionValues(DepartmentOptions))
    ensures forall v :: v in OptionValues(DepartmentOptions) <==> v in Departments
  {
    OptionValuesSwapFirstTwo();
    DepartmentsAreDistinct();
    var vs := OptionValues(DepartmentOptions);
    forall v ensures v in vs <==> v in Departments {
      if v in Departments {
        var k :| 0 <= k < |Departments| && Departments[k] == v;
        assert vs[if k == 0 then 1 else if k == 1 then 0 else k] == v;
      }
    }
  }

  predicate StartsWith(s: string, prefix: string) {
    |prefix| <= |s| && s[..|prefix|] == prefix
  }

  lemma CaptionOf(o: DepartmentOption, rest: string)
    requires o.caption == o.value + " - " + rest
    ensures StartsWith(o.caption, o.value + " - ")
  {
    assert o.caption[..|o.value + " - "|] == o.value + " - ";
  }

  /** Each picker caption begins with its code and " - ". */
  lemma CaptionsStartWithValue()
    ensures forall i | 0 <= i < |DepartmentOptions| :: StartsWith(DepartmentOptions[i].caption, DepartmentOptions[i].value + " - ")
  {
    forall i | 0 <= i < |DepartmentOptions|
      ensures StartsWith(DepartmentOptions[i].caption, DepartmentOptions[i].value + " - ")
    {
      CaptionOf(DepartmentOptions[i], OptionNames[i].1);
    }
  }

  /** Three roles; the statuses in lifecycle order. */
  lemma RolesAndStatuses()
    ensures |Roles| == 3 && Distinct(Roles)
    ensures Statuses == ["OPEN", "IN_PROGRESS", "CLOSED"] && Distinct(Statuses)
  {
  }
}
