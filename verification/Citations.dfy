/** The citation check: which findings and which parts of a diagnosis are kept. */
module Citations {
  import opened Domain

  datatype Kind = Fact | Inference | Hypothesis

  datatype Signal = Metrics | Logs | Traces | Changes | Flags

  datatype Finding = Finding(statement: string, kind: Kind, signal: Signal, evidence: seq<string>)

  datatype Report = Report(summary: string, findings: seq<Finding>)

  /** A root cause, a claim or a planned action: anything that cites evidence. */
  datatype Cited = Cited(body: string, evidence: seq<string>)

  datatype Diagnosis = Diagnosis(
    summary: string, rootCauses: seq<Cited>, facts: seq<Cited>, inferences: seq<Cited>, hypotheses: seq<string>)

  /** The answer with every failing item removed; no problems if it passed as it was. */
  datatype Checked<V> = Checked(value: V, problems: seq<Problem>, dropped: nat)

  datatype Problem =
    | NotEvidence(list: string, item: nat, id: string)
    | NotShown(list: string, item: nat, id: string)
    | NeedsEvidence(list: string, item: nat)
    | OnlyKnowledge(list: string, item: nat)
    | WrongSignal(list: string, item: nat)

  /** The problems mention item i of the list. */
  predicate Names(problems: seq<Problem>, list: string, i: nat) {
    exists p :: p in problems && p.list == list && p.item == i
  }

  /** All of the problems are about item i of the list. */
  predicate AllAbout(problems: seq<Problem>, list: string, i: nat) {
    forall p :: p in problems ==> p.list == list && p.item == i
  }

  function SignalTools(s: Signal): set<string> {
    match s
    case Metrics => {"prom_query", "prom_range"}
    case Logs => {"logs_search"}
    case Traces => {"traces_search", "trace_get"}
    case Changes => {"rollout_history", "deploy_diff", "k8s_events"}
    case Flags => {"flag_state"}
  }

  const KNOWLEDGE_TOOLS: set<string> := {"kb_search"}

  function ToolsOf(ids: seq<string>, known: map<string, string>): set<string> {
    set ev | ev in ids && ev in known :: known[ev]
  }

  // ----- What may be cited, said outright -----

  predicate AllShown(ids: seq<string>, known: map<string, string>, shown: set<string>) {
    forall ev :: ev in ids ==> ev in known && ev in shown
  }

  /** Some cited result comes from none of the given tools. */
  predicate CitesLive(ids: seq<string>, known: map<string, string>) {
    exists ev :: ev in ids && ev in known && known[ev] !in KNOWLEDGE_TOOLS
  }

  predicate CitesSignal(ids: seq<string>, known: map<string, string>, signal: Signal) {
    exists ev :: ev in ids && ev in known && known[ev] !in KNOWLEDGE_TOOLS && known[ev] in SignalTools(signal)
  }

  predicate FindingHolds(f: Finding, known: map<string, string>, shown: set<string>) {
    && AllShown(f.evidence, known, shown)
    && (f.kind != Hypothesis ==> CitesLive(f.evidence, known))
    && (CitesLive(f.evidence, known) ==> CitesSignal(f.evidence, known, f.signal))
  }

  /** With `live`, an item that cites anything must cite more than the knowledge base. */
  predicate ItemHolds(item: Cited, known: map<string, string>, shown: set<string>, live: bool) {
    AllShown(item.evidence, known, shown) && (live && item.evidence != [] ==> CitesLive(item.evidence, known))
  }

  function FindingsKept(findings: seq<Finding>, known: map<string, string>, shown: set<string>): seq<Finding> {
    if findings == [] then []
    else FindingsKept(findings[..|findings| - 1], known, shown)
         + (if FindingHolds(findings[|findings| - 1], known, shown) then [findings[|findings| - 1]] else [])
  }

  function ItemsKept(items: seq<Cited>, known: map<string, string>, shown: set<string>, live: bool): seq<Cited> {
    if items == [] then []
    else ItemsKept(items[..|items| - 1], known, shown, live)
         + (if ItemHolds(items[|items| - 1], known, shown, live) then [items[|items| - 1]] else [])
  }

  // ----- The checks -----

  function IdProblem(ev: string, known: map<string, string>, list: string, item: nat): Problem {
    if ev !in known then NotEvidence(list, item, ev) else NotShown(list, item, ev)
  }

  method IdProblems(ids: seq<string>, known: map<string, string>, shown: set<string>, list: string, item: nat)
    returns (out: seq<Problem>)
    ensures out == [] <==> AllShown(ids, known, shown)
    ensures forall p :: p in out <==> exists ev :: ev in ids && p == IdProblem(ev, known, list, item) && !(ev in known && ev in shown)
  {
    out := [];
    for n := 0 to |ids|
      invariant out == [] <==> forall k :: 0 <= k < n ==> ids[k] in known && ids[k] in shown
      invariant forall p :: p in out <==> exists ev :: ev in ids[..n] && p == IdProblem(ev, known, list, item) && !(ev in known && ev in shown)
    {
      assert ids[..n + 1] == ids[..n] + [ids[n]];
      if ids[n] !in known {
        out := out + [NotEvidence(list, item, ids[n])];
      } else if ids[n] !in shown {
        out := out + [NotShown(list, item, ids[n])];
      }
    }
  }

  lemma LiveTools(ids: seq<string>, known: map<string, string>, signal: Signal)
    ensures ToolsOf(ids, known) - KNOWLEDGE_TOOLS != {} <==> CitesLive(ids, known)
    ensures (ToolsOf(ids, known) - KNOWLEDGE_TOOLS) * SignalTools(signal) != {} <==> CitesSignal(ids, known, signal)
    ensures ToolsOf(ids, known) <= KNOWLEDGE_TOOLS <==> !CitesLive(ids, known)
    ensures ToolsOf(ids, known) == {} <==> forall ev :: ev in ids ==> ev !in known
  {
    hide SignalTools;
    var tools := ToolsOf(ids, known);
    forall ev | ev in ids && ev in known ensures known[ev] in tools {}
    if CitesLive(ids, known) {
      var ev :| ev in ids && ev in known && known[ev] !in KNOWLEDGE_TOOLS;
      assert known[ev] in tools - KNOWLEDGE_TOOLS;
    }
    if CitesSignal(ids, known, signal) {
      var ev :| ev in ids && ev in known && known[ev] !in KNOWLEDGE_TOOLS && known[ev] in SignalTools(signal);
      assert known[ev] in (tools - KNOWLEDGE_TOOLS) * SignalTools(signal);
    }
    if tools - KNOWLEDGE_TOOLS != {} {
      var t :| t in tools - KNOWLEDGE_TOOLS;
    }
    if (tools - KNOWLEDGE_TOOLS) * SignalTools(signal) != {} {
      var t :| t in (tools - KNOWLEDGE_TOOLS) * SignalTools(signal);
    }
  }

  method FindingProblems(f: Finding, list: string, item: nat, known: map<string, string>, shown: set<string>)
    returns (problems: seq<Problem>)
    ensures problems == [] <==> FindingHolds(f, known, shown)
    ensures AllAbout(problems, list, item)
    ensures NeedsEvidence(list, item) in problems <==> f.kind != Hypothesis && f.evidence == []
    ensures OnlyKnowledge(list, item) in problems <==>
            f.kind != Hypothesis && !CitesLive(f.evidence, known) && exists ev :: ev in f.evidence && ev in known
    ensures WrongSignal(list, item) in problems <==> CitesLive(f.evidence, known) && !CitesSignal(f.evidence, known, f.signal)
  {
    hide SignalTools, ToolsOf, CitesLive, CitesSignal;
    problems := IdProblems(f.evidence, known, shown, list, item);
    if f.kind != Hypothesis && f.evidence == [] {
      problems := problems + [NeedsEvidence(list, item)];
    }
    var tools := ToolsOf(f.evidence, known);
    var live := tools - KNOWLEDGE_TOOLS;
    LiveTools(f.evidence, known, f.signal);
    if f.kind != Hypothesis && tools != {} && live == {} {
      problems := problems + [OnlyKnowledge(list, item)];
    } else if live != {} && live * SignalTools(f.signal) == {} {
      problems := problems + [WrongSignal(list, item)];
    }
    NoEvidenceNoTools(f.evidence, known);
    assert f.evidence != [] ==> f.evidence[0] in f.evidence;
  }

  lemma NoEvidenceNoTools(ids: seq<string>, known: map<string, string>)
    ensures ids == [] ==> !CitesLive(ids, known)
  {
  }

  lemma {:induction false} FewerKept(findings: seq<Finding>, known: map<string, string>, shown: set<string>)
    ensures |FindingsKept(findings, known, shown)| <= |findings|
    ensures forall f :: f in FindingsKept(findings, known, shown) <==> f in findings && FindingHolds(f, known, shown)
  {
    hide FindingHolds;
    if findings != [] {
      var shorter, last := findings[..|findings| - 1], findings[|findings| - 1];
      FewerKept(shorter, known, shown);
      assert findings == shorter + [last];
    }
  }

  lemma NamesOfConcat(x: seq<Problem>, y: seq<Problem>, list: string, i: nat)
    requires AllAbout(y, list, i)
    ensures forall l, k: nat :: Names(x + y, l, k) <==> Names(x, l, k) || (y != [] && l == list && k == i)
  {
    forall l, k: nat ensures Names(x + y, l, k) <==> Names(x, l, k) || (y != [] && l == list && k == i) {
      if Names(x, l, k) {
        var p :| p in x && p.list == l && p.item == k;
        assert p in x + y;
      }
      if y != [] {
        assert y[0] in x + y && y[0] in y;
      }
      if Names(x + y, l, k) {
        var p :| p in x + y && p.list == l && p.item == k;
        assert p in x || p in y;
      }
    }
  }

  method CheckReport(report: Report, known: map<string, string>, shown: set<string>) returns (c: Checked<Report>)
    ensures c.value == Report(report.summary, FindingsKept(report.findings, known, shown))
    ensures c.problems == [] <==> forall f :: f in report.findings ==> FindingHolds(f, known, shown)
    ensures forall i :: 0 <= i < |report.findings| ==>
              (Names(c.problems, "findings", i) <==> !FindingHolds(report.findings[i], known, shown))
    ensures c.dropped == |report.findings| - |c.value.findings|
  {
    hide FindingHolds;
    var problems: seq<Problem> := [];
    var kept: seq<Finding> := [];
    for i := 0 to |report.findings|
      invariant kept == FindingsKept(report.findings[..i], known, shown)
      invariant |kept| <= i
      invariant problems == [] <==> forall k :: 0 <= k < i ==> FindingHolds(report.findings[k], known, shown)
      invariant forall k :: 0 <= k < i ==> (Names(problems, "findings", k) <==> !FindingHolds(report.findings[k], known, shown))
      invariant forall k :: k >= i ==> !Names(problems, "findings", k)
    {
      var p := FindingProblems(report.findings[i], "findings", i, known, shown);
      NamesOfConcat(problems, p, "findings", i);
      problems := problems + p;
      if p == [] { kept := kept + [report.findings[i]]; }
      assert report.findings[..i + 1][..i] == report.findings[..i];
    }
    assert report.findings[..|report.findings|] == report.findings;
    c := Checked(Report(report.summary, kept), problems, |report.findings| - |kept|);
  }

  /** The caller's problems grow; the items kept are returned. */
  method Keep(items: seq<Cited>, list: string, known: map<string, string>, shown: set<string>, before: seq<Problem>, live: bool)
    returns (out: seq<Cited>, problems: seq<Problem>)
    ensures out == ItemsKept(items, known, shown, live) && |out| <= |items|
    ensures before <= problems
    ensures problems == before <==> forall item :: item in items ==> ItemHolds(item, known, shown, live)
    ensures forall i :: 0 <= i < |items| && !Names(before, list, i) ==>
              (Names(problems, list, i) <==> !ItemHolds(items[i], known, shown, live))
    ensures forall l, k: nat :: l != list ==> (Names(problems, l, k) <==> Names(before, l, k))
  {
    hide ItemHolds, Names;
    out, problems := [], before;
    for i := 0 to |items|
      invariant out == ItemsKept(items[..i], known, shown, live) && |out| <= i
      invariant before <= problems
      invariant problems == before <==> forall k :: 0 <= k < i ==> ItemHolds(items[k], known, shown, live)
      invariant forall k :: 0 <= k < i && !Names(before, list, k) ==> (Names(problems, list, k) <==> !ItemHolds(items[k], known, shown, live))
      invariant forall l, k: nat :: l != list || k >= i ==> (Names(problems, l, k) <==> Names(before, l, k))
    {
      var p := ItemProblems(items[i], list, i, known, shown, live);
      NamesOfConcat(problems, p, list, i);
      problems := problems + p;
      if p == [] { out := out + [items[i]]; }
      assert items[..i + 1][..i] == items[..i];
    }
    assert items[..|items|] == items;
  }

  method ItemProblems(item: Cited, list: string, i: nat, known: map<string, string>, shown: set<string>, live: bool)
    returns (p: seq<Problem>)
    ensures p == [] <==> ItemHolds(item, known, shown, live)
    ensures AllAbout(p, list, i)
  {
    hide ToolsOf, CitesLive;
    p := IdProblems(item.evidence, known, shown, list, i);
    var tools := ToolsOf(item.evidence, known);
    LiveTools(item.evidence, known, Metrics);
    if live && tools != {} && tools <= KNOWLEDGE_TOOLS {
      p := p + [OnlyKnowledge(list, i)];
    }
    NoEvidenceNoTools(item.evidence, known);
    assert item.evidence != [] ==> item.evidence[0] in item.evidence;
  }

  function DiagnosisKept(dx: Diagnosis, known: map<string, string>, shown: set<string>): Diagnosis {
    Diagnosis(dx.summary, ItemsKept(dx.rootCauses, known, shown, true), ItemsKept(dx.facts, known, shown, true),
              ItemsKept(dx.inferences, known, shown, true), dx.hypotheses)
  }

  function Claims(dx: Diagnosis): seq<Cited> { dx.rootCauses + dx.facts + dx.inferences }

  /** The problems name exactly the items of the list that fail. */
  ghost predicate ExactlyTheFailing(problems: seq<Problem>, items: seq<Cited>, list: string, known: map<string, string>, shown: set<string>) {
    forall i :: 0 <= i < |items| ==> (Names(problems, list, i) <==> !ItemHolds(items[i], known, shown, true))
  }

  method CheckDiagnosis(dx: Diagnosis, known: map<string, string>, shown: set<string>) returns (c: Checked<Diagnosis>)
    ensures c.value == DiagnosisKept(dx, known, shown)
    ensures c.problems == [] <==> forall item :: item in Claims(dx) ==> ItemHolds(item, known, shown, true)
    ensures ExactlyTheFailing(c.problems, dx.rootCauses, "root_causes", known, shown)
    ensures ExactlyTheFailing(c.problems, dx.facts, "facts", known, shown)
    ensures ExactlyTheFailing(c.problems, dx.inferences, "inferences", known, shown)
    ensures c.dropped == |Claims(dx)| - |Claims(c.value)|
  {
    hide ItemHolds, ItemsKept;
    assert forall l, k: nat :: !Names([], l, k);
    hide Names;
    var rootCauses, p1 := Keep(dx.rootCauses, "root_causes", known, shown, [], true);
    var facts, p2 := Keep(dx.facts, "facts", known, shown, p1, true);
    var inferences, p3 := Keep(dx.inferences, "inferences", known, shown, p2, true);
    var dropped := (|dx.rootCauses| - |rootCauses|) + (|dx.facts| - |facts|) + (|dx.inferences| - |inferences|);
    c := Checked(Diagnosis(dx.summary, rootCauses, facts, inferences, dx.hypotheses), p3, dropped);
  }

  /** A plan's actions are checked like a diagnosis, except that background alone may support them. */
  method CheckPlan(actions: seq<Cited>, known: map<string, string>, shown: set<string>) returns (c: Checked<seq<Cited>>)
    ensures c.value == ItemsKept(actions, known, shown, false)
    ensures forall item :: item in c.value ==> AllShown(item.evidence, known, shown)
    ensures c.problems == [] <==> c.dropped == 0
    ensures c.dropped == |actions| - |c.value|
  {
    hide ItemHolds;
    var kept, problems := Keep(actions, "actions", known, shown, [], false);
    KeptItemsHold(actions, known, shown, false);
    ItemHoldsMeansShown(known, shown);
    c := Checked(kept, problems, |actions| - |kept|);
  }

  lemma ItemHoldsMeansShown(known: map<string, string>, shown: set<string>)
    ensures forall item :: ItemHolds(item, known, shown, false) <==> AllShown(item.evidence, known, shown)
  {
  }

  // ----- Checking again changes nothing -----

  lemma {:induction false} KeptItemsHold(items: seq<Cited>, known: map<string, string>, shown: set<string>, live: bool)
    ensures var kept := ItemsKept(items, known, shown, live);
            && (forall item :: item in kept <==> item in items && ItemHolds(item, known, shown, live))
            && |kept| <= |items|
            && (|kept| == |items| <==> forall item :: item in items ==> ItemHolds(item, known, shown, live))
            && ((forall item :: item in items ==> ItemHolds(item, known, shown, live)) ==> kept == items)
  {
    hide ItemHolds;
    if items != [] {
      var shorter, last := items[..|items| - 1], items[|items| - 1];
      KeptItemsHold(shorter, known, shown, live);
      assert items == shorter + [last];
    }
  }

  lemma {:induction false} AllHoldKeepsAll(findings: seq<Finding>, known: map<string, string>, shown: set<string>)
    requires forall f :: f in findings ==> FindingHolds(f, known, shown)
    ensures FindingsKept(findings, known, shown) == findings
  {
    hide FindingHolds;
    if findings != [] {
      var shorter, last := findings[..|findings| - 1], findings[|findings| - 1];
      assert last in findings && forall f :: f in shorter ==> f in findings;
      AllHoldKeepsAll(shorter, known, shown);
      assert findings == shorter + [last];
    }
  }

  /** An accepted report passes a second check whole. */
  lemma AcceptedReportPassesAgain(findings: seq<Finding>, known: map<string, string>, shown: set<string>)
    ensures var kept := FindingsKept(findings, known, shown);
            && (forall f :: f in kept ==> FindingHolds(f, known, shown))
            && FindingsKept(kept, known, shown) == kept
  {
    hide FindingHolds, FindingsKept;
    FewerKept(findings, known, shown);
    AllHoldKeepsAll(FindingsKept(findings, known, shown), known, shown);
  }

  /** So does an accepted diagnosis. */
  lemma AcceptedDiagnosisPassesAgain(dx: Diagnosis, known: map<string, string>, shown: set<string>)
    ensures var kept := DiagnosisKept(dx, known, shown);
            && (forall item :: item in Claims(kept) ==> ItemHolds(item, known, shown, true))
            && DiagnosisKept(kept, known, shown) == kept
  {
    hide ItemHolds, ItemsKept;
    var kept := DiagnosisKept(dx, known, shown);
    KeptItemsHold(dx.rootCauses, known, shown, true);
    KeptItemsHold(dx.facts, known, shown, true);
    KeptItemsHold(dx.inferences, known, shown, true);
    KeptItemsHold(kept.rootCauses, known, shown, true);
    KeptItemsHold(kept.facts, known, shown, true);
    KeptItemsHold(kept.inferences, known, shown, true);
  }
}
