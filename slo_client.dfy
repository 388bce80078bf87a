/** The catalog's record shapes: services, their SLOs and the SLOs' indicators,
    with the human-readable names that key every warehouse row. */
module SloClient {
  import opened Outcomes

  /** strings.Split(s, string(sep)): the pieces between separators, in order.
      There is always at least one piece; the empty string gives [""]. */
  function Split(s: string, sep: char): (parts: seq<string>)
    ensures |parts| >= 1
    ensures forall i :: 0 <= i < |parts| ==> sep !in parts[i]
    decreases |s|
  {
    if s == [] then [[]]
    else
      var rest := Split(s[1..], sep);
      if s[0] == sep then [[]] + rest
      else [[s[0]] + rest[0]] + rest[1..]
  }

  /** strings.Join(parts, string(sep)). */
  function Join(parts: seq<string>, sep: char): string
    requires |parts| >= 1
  {
    if |parts| == 1 then parts[0] else parts[0] + [sep] + Join(parts[1..], sep)
  }

  /** Joining the pieces back gives the original string. */
  lemma {:induction false} JoinSplit(s: string, sep: char)
    ensures Join(Split(s, sep), sep) == s
    decreases |s|
  {
    if s != [] {
      JoinSplit(s[1..], sep);
      var rest := Split(s[1..], sep);
      if s[0] != sep {
        if |rest| > 1 {
          assert ([[s[0]] + rest[0]] + rest[1..])[1..] == rest[1..];
        }
      }
    }
  }

  lemma {:induction false} SplitNoSeparator(a: string, sep: char)
    requires sep !in a
    ensures Split(a, sep) == [a]
    decreases |a|
  {
    if a != [] {
      SplitNoSeparator(a[1..], sep);
      assert [a[0]] + a[1..] == a;
    }
  }

  lemma {:induction false} SplitAfterPiece(a: string, sep: char, b: string)
    requires sep !in a
    ensures Split(a + [sep] + b, sep) == [a] + Split(b, sep)
    decreases |a|
  {
    var s := a + [sep] + b;
    if a == [] {
      assert s[1..] == b;
    } else {
      assert s[1..] == a[1..] + [sep] + b;
      SplitAfterPiece(a[1..], sep, b);
      assert [a[0]] + a[1..] == a;
    }
  }

  /** Splitting a join of separator-free pieces gives the pieces back. */
  lemma {:induction false} SplitJoin(parts: seq<string>, sep: char)
    requires |parts| >= 1
    requires forall i :: 0 <= i < |parts| ==> sep !in parts[i]
    ensures Split(Join(parts, sep), sep) == parts
    decreases |parts|
  {
    if |parts| == 1 {
      SplitNoSeparator(parts[0], sep);
    } else {
      SplitJoin(parts[1..], sep);
      SplitAfterPiece(parts[0], sep, Join(parts[1..], sep));
    }
  }

  /** The ratio form of a request-based indicator: three monitoring filter
      expressions, the empty string meaning "not set". */
  datatype GoodTotalRatio = GoodTotalRatio(good: string, bad: string, total: string)

  datatype RequestBased = RequestBased(goodTotalRatio: Option<GoodTotalRatio>)

  datatype Indicator = Indicator(requestBased: Option<RequestBased>)

  /** A service of the catalog; `name` is 'projects/$project/services/$service'. */
  datatype Service = Service(name: string, displayName: string, serviceType: string, resourceName: string) {

    /** HumanName can be computed: Go indexes segment 3 and panics without it. */
    predicate Named() {
      displayName != "" || |Split(name, '/')| > 3
    }

    /** The display name when set, else the $service segment of the resource name. */
    function HumanName(): (r: string)
      requires Named()
      ensures displayName != "" ==> r == displayName
      ensures displayName == "" ==> '/' !in r && r in Split(name, '/') && r == Split(name, '/')[3]
    {
      if displayName != "" then displayName else Split(name, '/')[3]
    }
  }

  /** An SLO of a service; `name` is
      'projects/$project/services/$service/serviceLevelObjectives/$slo'.
      `goal` is the target ratio, kept as a real; only the ratio form of the
      indicator matters to the sync. */
  datatype Slo = Slo(name: string, displayName: string, goal: real, sli: Indicator) {

    predicate Named() {
      displayName != "" || |Split(name, '/')| > 5
    }

    /** The display name when set, else the $slo segment of the resource name. */
    function HumanName(): (r: string)
      requires Named()
      ensures displayName != "" ==> r == displayName
      ensures displayName == "" ==> '/' !in r && r in Split(name, '/') && r == Split(name, '/')[5]
    {
      if displayName != "" then displayName else Split(name, '/')[5]
    }

    /** The SLO is measured by a good/total ratio: the only kind that is synced. */
    predicate HasRatio() {
      sli.requestBased.Some? && sli.requestBased.value.goodTotalRatio.Some?
    }

    function Ratio(): GoodTotalRatio
      requires HasRatio()
    {
      sli.requestBased.value.goodTotalRatio.value
    }
  }

  /** 'projects/$project/services/$service'. */
  function ServiceResourceName(project: string, service: string): string {
    Join(["projects", project, "services", service], '/')
  }

  /** 'projects/$project/services/$service/serviceLevelObjectives/$slo'. */
  function SloResourceName(project: string, service: string, slo: string): string {
    Join(["projects", project, "services", service, "serviceLevelObjectives", slo], '/')
  }

  /** Without a display name, a service is named by the $service segment of its
      resource name. */
  lemma ServiceNameFromResource(project: string, id: string, serviceType: string, resourceName: string)
    requires '/' !in project && '/' !in id
    ensures Service(ServiceResourceName(project, id), "", serviceType, resourceName).Named()
    ensures Service(ServiceResourceName(project, id), "", serviceType, resourceName).HumanName() == id
  {
    SplitJoin(["projects", project, "services", id], '/');
  }

  /** Without a display name, an SLO is named by the $slo segment of its
      resource name. */
  lemma SloNameFromResource(project: string, service: string, id: string, goal: real, sli: Indicator)
    requires '/' !in project && '/' !in service && '/' !in id
    ensures Slo(SloResourceName(project, service, id), "", goal, sli).Named()
    ensures Slo(SloResourceName(project, service, id), "", goal, sli).HumanName() == id
  {
    SplitJoin(["projects", project, "services", service, "serviceLevelObjectives", id], '/');
  }
}
