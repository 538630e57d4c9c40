/**
 The evidence gate of the orchestrator: `talk_to_li_with_outcome` (backend/app/li_runtime.py) over
 `consult_specialists` (backend/app/specialist_runtime.py) and `validate_evidence_contract`
 (backend/app/research_runtime.py). What specialists, the research provider and the model return is
 arbitrary and given as `Outside`; the freshness decisions and policies are arbitrary functions of the
 specialist.
 */
module EvidenceGate {
  import opened Wrappers

  type Key = string

  const NORA: Key := "nora"

  datatype SourceClass =
    | Official | Primary | Authoritative | Provider | Academic | News | Professional | Secondary

  datatype Evidence = Evidence(recent: bool, mapsClaim: bool, sourceClass: SourceClass)

  datatype Decision = Decision(
    required: bool, minimumCount: nat, primaryRequired: bool, requiredClasses: set<SourceClass>)

  /** The registry: when evidence is required, which sources count, who can provide it. */
  datatype Policies = Policies(
    decide: Key -> Decision, secondaryAllowed: Key -> bool, providerCompliant: Key -> bool)

  // ----- validating evidence -----

  predicate Acceptable(e: Evidence, secondaryAllowed: bool) {
    e.recent && e.mapsClaim && (e.sourceClass.Secondary? ==> secondaryAllowed)
  }

  const PRIMARY_CLASSES := {Official, Primary, Authoritative, Provider}

  predicate IsPrimary(e: Evidence, d: Decision) {
    && (e.sourceClass.Official? || e.sourceClass.Primary? || e.sourceClass.Authoritative? || e.sourceClass.Provider?)
    && e.sourceClass in d.requiredClasses
  }

  function AcceptedOf(evidence: seq<Evidence>, secondaryAllowed: bool): seq<Evidence> {
    if evidence == [] then []
    else
      var last := evidence[|evidence| - 1];
      AcceptedOf(evidence[..|evidence| - 1], secondaryAllowed)
      + (if Acceptable(last, secondaryAllowed) then [last] else [])
  }

  /** Evidence that meets a decision: enough of it, all acceptable, and primary where required. */
  ghost predicate Sufficient(evidence: seq<Evidence>, d: Decision, secondaryAllowed: bool) {
    && |evidence| >= d.minimumCount
    && (forall e :: e in evidence ==> Acceptable(e, secondaryAllowed))
    && (d.primaryRequired ==> exists e :: e in evidence && IsPrimary(e, d))
  }

  /** Passing means the acceptable records suffice; and nothing short of that passes. */
  method ValidateEvidenceContract(d: Decision, secondaryAllowed: bool, evidence: seq<Evidence>)
    returns (passed: bool, accepted: seq<Evidence>)
    ensures !d.required ==> passed && accepted == []
    ensures d.required ==> (passed <==> Sufficient(AcceptedOf(evidence, secondaryAllowed), d, secondaryAllowed))
    ensures d.required ==> accepted == if passed then AcceptedOf(evidence, secondaryAllowed) else []
  {
    if !d.required { return true, []; }
    accepted := [];
    var primaryPresent := false;
    var k := 0;
    assert evidence[..0] == [];
    while k < |evidence|
      invariant 0 <= k <= |evidence|
      invariant accepted == AcceptedOf(evidence[..k], secondaryAllowed)
      invariant forall e :: e in accepted ==> Acceptable(e, secondaryAllowed)
      invariant primaryPresent <==> exists e :: e in accepted && IsPrimary(e, d)
    {
      assert evidence[..k + 1][..k] == evidence[..k];
      var record := evidence[k];
      k := k + 1;
      if !record.recent || !record.mapsClaim || (record.sourceClass == Secondary && !secondaryAllowed) {
        continue;
      }
      ghost var before := accepted;
      accepted := accepted + [record];
      assert forall e :: e in accepted <==> e in before || e == record;
      assert IsPrimary(record, d) <==>
        record.sourceClass in PRIMARY_CLASSES && record.sourceClass in d.requiredClasses;
      if record.sourceClass in PRIMARY_CLASSES && record.sourceClass in d.requiredClasses {
        primaryPresent := true;
      }
    }
    assert evidence[..k] == evidence;
    passed := |accepted| >= d.minimumCount && (d.primaryRequired ==> primaryPresent);
    if !passed { accepted := []; }
  }

  // ----- the turn -----

  datatype Status = StableKnowledge | Pending | LiveVerified | CouldNotVerify

  datatype Metadata = Metadata(required: bool, status: Status, evidence: seq<Evidence>)

  /** A specialist's analysis, or the filler that stands in for one that could not be verified. */
  datatype Analysis = Filler | Genuine(requestsResearch: bool)

  datatype Path = DirectBlocked | Direct | Synthesis | Repair

  datatype Response = SafeFailure(evidenceBlocked: bool) | Prose(text: string)

  datatype Outcome = Outcome(response: Response, used: seq<Key>, intents: seq<string>, path: Path)

  /** The model's reply: a structured synthesis, or text that does not parse as one. */
  datatype Generated = Structured(text: string, used: seq<Key>, intents: seq<string>) | Unstructured(text: string)

  /** How asking a specialist ends: an error that ends the turn, no analysis, or one. */
  datatype Answer = Raises | Unavailable | Gives(requestsResearch: bool)

  /** How asking Nora once more, with the evidence she asked for, ends. */
  datatype Again = AgainRaises | AgainFails | AgainGives

  /**
   Everything the turn does not decide itself: the records the research provider would return for
   each specialist, the analyses, the model's two replies (None when the call raises), and two tests
   on texts.
   */
  datatype Outside = Outside(
    retrieved: Key -> seq<Evidence>, answer: Key -> Answer, again: Again,
    generated: Option<Generated>, repaired: Option<string>,
    presentable: string -> bool, namesSpecialist: string -> bool)

  /** What the loops work on: one record of metadata per routed specialist, and the analyses. */
  datatype State = State(metadata: map<Key, Metadata>, results: map<Key, Analysis>)

  ghost predicate Blocked(s: State) {
    exists key :: key in s.metadata && s.metadata[key].required && s.metadata[key].status == CouldNotVerify
  }

  /** The only outcome a blocked turn may have. */
  predicate IsSafe(o: Outcome) {
    o.response == SafeFailure(true) && o.used == [] && o.intents == []
  }

  // ----- what a turn owes, told by policies and answers alone -----

  /** The records that would be retrieved for the specialist contain enough acceptable evidence. */
  ghost predicate Proven(p: Policies, o: Outside, key: Key) {
    Sufficient(AcceptedOf(o.retrieved(key), p.secondaryAllowed(key)), p.decide(key), p.secondaryAllowed(key))
  }

  /** The specialist ends with a genuine analysis. */
  ghost predicate Answers(p: Policies, o: Outside, key: Key) {
    && o.answer(key).Gives?
    && (key != NORA && p.decide(key).required ==> p.providerCompliant(key) && Proven(p, o, key))
    && (key == NORA && o.answer(key).requestsResearch && Proven(p, o, key) ==> o.again.AgainGives?)
  }

  /** A required specialist without an analysis; or Nora, when the evidence she asked for is wanting. */
  ghost predicate Lacks(p: Policies, o: Outside, key: Key) {
    || !Answers(p, o, key)
    || (key == NORA && o.answer(key).requestsResearch && !Proven(p, o, key))
  }

  ghost predicate MustBlock(p: Policies, o: Outside, routing: seq<Key>) {
    exists key :: key in routing && p.decide(key).required && Lacks(p, o, key)
  }

  /** One specialist's missing provider, missing evidence or missing analysis is enough to block. */
  lemma WantingEvidenceBlocks(p: Policies, o: Outside, routing: seq<Key>, key: Key)
    requires key in routing && key != NORA && p.decide(key).required
    requires
      || !p.providerCompliant(key)
      || !Sufficient(AcceptedOf(o.retrieved(key), p.secondaryAllowed(key)), p.decide(key), p.secondaryAllowed(key))
      || o.answer(key) == Unavailable
    ensures MustBlock(p, o, routing)
  {
    assert Lacks(p, o, key);
  }

  /** Compliant providers, sufficient evidence and an analysis from each leave nothing to block. */
  lemma SufficientEvidenceUnblocks(p: Policies, o: Outside, routing: seq<Key>)
    requires forall key :: key in routing ==> key != NORA && o.answer(key).Gives?
    requires forall key :: key in routing && p.decide(key).required ==>
               && p.providerCompliant(key)
               && Sufficient(AcceptedOf(o.retrieved(key), p.secondaryAllowed(key)), p.decide(key),
                             p.secondaryAllowed(key))
    ensures !MustBlock(p, o, routing)
  {
  }

  /** The errors that can end a turn. */
  ghost predicate SomethingRaises(o: Outside, routing: seq<Key>) {
    || (exists key :: key in routing && o.answer(key).Raises?)
    || o.again.AgainRaises? || o.generated.None? || o.repaired.None?
  }

  // ----- research -----

  /** Metadata after the evidence loop: verified exactly with a compliant provider and enough evidence. */
  ghost predicate Gathered(p: Policies, o: Outside, key: Key, m: Metadata) {
    && m.required == p.decide(key).required
    && (!m.required ==> m.status == StableKnowledge && m.evidence == [])
    && (m.required && key == NORA ==> m.status == Pending && m.evidence == [])
    && (m.required && key != NORA ==>
          if p.providerCompliant(key) && Proven(p, o, key)
          then m.status == LiveVerified && m.evidence == AcceptedOf(o.retrieved(key), p.secondaryAllowed(key))
          else m.status == CouldNotVerify && m.evidence == [])
  }

  /** Execute research for one specialist and judge what came back. */
  method Verify(p: Policies, o: Outside, key: Key) returns (status: Status, evidence: seq<Evidence>)
    ensures Proven(p, o, key) ==>
              status == LiveVerified && evidence == AcceptedOf(o.retrieved(key), p.secondaryAllowed(key))
    ensures !Proven(p, o, key) ==> status == CouldNotVerify && evidence == []
  {
    var passed;
    passed, evidence :=
      ValidateEvidenceContract(p.decide(key).(required := true), p.secondaryAllowed(key), o.retrieved(key));
    status := if passed then LiveVerified else CouldNotVerify;
    SameDemand(AcceptedOf(o.retrieved(key), p.secondaryAllowed(key)), p.decide(key), p.secondaryAllowed(key));
  }

  /** What suffices does not depend on whether evidence was required in the first place. */
  lemma SameDemand(evidence: seq<Evidence>, d: Decision, secondaryAllowed: bool)
    ensures Sufficient(evidence, d.(required := true), secondaryAllowed) <==> Sufficient(evidence, d, secondaryAllowed)
  {
    assert forall e :: IsPrimary(e, d.(required := true)) == IsPrimary(e, d);
  }

  method GatherEvidence(p: Policies, o: Outside, routing: seq<Key>) returns (metadata: map<Key, Metadata>)
    ensures metadata.Keys == (set key | key in routing)
    ensures forall key :: key in metadata ==> Gathered(p, o, key, metadata[key])
  {
    metadata := map[];
    for k := 0 to |routing|
      invariant metadata.Keys == (set key | key in routing[..k])
      invariant forall key :: key in metadata ==> Gathered(p, o, key, metadata[key])
    {
      var key := routing[k];
      var required := p.decide(key).required;
      var m := Metadata(required, if required then Pending else StableKnowledge, []);
      if required && key != NORA {
        if !p.providerCompliant(key) {
          m := m.(status := CouldNotVerify);
        } else {
          var status, evidence := Verify(p, o, key);
          m := m.(status := status, evidence := evidence);
        }
      }
      metadata := metadata[key := m];
      assert routing[..k + 1] == routing[..k] + [key];
    }
    assert routing[..|routing|] == routing;
  }

  // ----- consultation -----

  /** `list(dict.fromkeys(keys))`: each key once, at its first place. */
  function Distinct(keys: seq<Key>): (r: seq<Key>)
    ensures forall key :: key in r <==> key in keys
    ensures forall i, j :: 0 <= i < j < |r| ==> r[i] != r[j]
  {
    if keys == [] then []
    else
      var last := keys[|keys| - 1];
      var before := Distinct(keys[..|keys| - 1]);
      assert forall key :: key in keys <==> key in keys[..|keys| - 1] || key == last;
      if last in before then before else before + [last]
  }

  const MAX_SPECIALISTS_PER_REQUEST: nat := 3

  datatype Consultation = Consultation(results: map<Key, Analysis>, unavailable: seq<Key>)

  /** Each of the asked has given a genuine analysis or is listed as unavailable, as it answered. */
  ghost predicate Accounted(o: Outside, asked: seq<Key>, c: Consultation) {
    && (forall key :: key in c.results <==> key in asked && o.answer(key).Gives?)
    && (forall key :: key in c.results ==> c.results[key] == Genuine(o.answer(key).requestsResearch))
    && (forall key :: key in c.unavailable <==> key in asked && o.answer(key).Unavailable?)
    && (forall i, j :: 0 <= i < j < |c.unavailable| ==> c.unavailable[i] != c.unavailable[j])
  }

  /** Each specialist returns an analysis or is unavailable; too many, or a raised error, end the turn. */
  method ConsultSpecialists(o: Outside, specialists: seq<Key>) returns (r: Result<Consultation, ()>)
    ensures r.Ok? ==> Accounted(o, specialists, r.value)
    ensures r.Err? <==>
            || |Distinct(specialists)| > MAX_SPECIALISTS_PER_REQUEST
            || exists key :: key in specialists && o.answer(key).Raises?
  {
    var asked := Distinct(specialists);
    if |asked| > MAX_SPECIALISTS_PER_REQUEST { return Err(()); }
    var c := Consultation(map[], []);
    for k := 0 to |asked|
      invariant Accounted(o, asked[..k], c)
      invariant forall key :: key in asked[..k] ==> !o.answer(key).Raises?
    {
      var key := asked[k];
      assert key in specialists;
      assert asked[..k + 1] == asked[..k] + [key];
      assert key !in asked[..k];
      match o.answer(key)
      case Raises => return Err(());
      case Gives(requestsResearch) => c := c.(results := c.results[key := Genuine(requestsResearch)]);
      case Unavailable => c := c.(unavailable := c.unavailable + [key]);
    }
    assert asked[..|asked|] == asked;
    r := Ok(c);
  }

  method Verifiable(routing: seq<Key>, metadata: map<Key, Metadata>) returns (r: seq<Key>)
    requires forall key :: key in routing ==> key in metadata
    ensures forall key :: key in r <==> key in routing && metadata[key].status != CouldNotVerify
  {
    r := [];
    var k := 0;
    while k < |routing|
      invariant 0 <= k <= |routing|
      invariant forall key :: key in r <==> key in routing[..k] && metadata[key].status != CouldNotVerify
    {
      if metadata[routing[k]].status != CouldNotVerify { r := r + [routing[k]]; }
      assert routing[..k + 1] == routing[..k] + [routing[k]];
      k := k + 1;
    }
    assert routing[..k] == routing;
  }

  /** Stand-ins for the specialists whose required evidence could not be verified. */
  method FillUnverified(routing: seq<Key>, s: State) returns (t: State)
    requires s.metadata.Keys == (set key | key in routing)
    ensures t.metadata == s.metadata
    ensures forall key :: key in t.results <==>
      key in s.results || (key in routing && s.metadata[key].status == CouldNotVerify)
    ensures forall key :: key in t.results ==>
      t.results[key] == if key in s.metadata && s.metadata[key].status == CouldNotVerify
                        then Filler else s.results[key]
    requires forall key :: key in s.results ==> key in routing && s.metadata[key].status != CouldNotVerify
  {
    t := s;
    var k := 0;
    while k < |routing|
      invariant 0 <= k <= |routing| && t.metadata == s.metadata
      invariant forall key :: key in t.results <==>
        key in s.results || (key in routing[..k] && s.metadata[key].status == CouldNotVerify)
      invariant forall key :: key in t.results ==>
        t.results[key] == if s.metadata[key].status == CouldNotVerify then Filler else s.results[key]
    {
      var key := routing[k];
      if s.metadata[key].status == CouldNotVerify {
        t := t.(results := t.results[key := Filler]);
      }
      assert routing[..k + 1] == routing[..k] + [key];
      k := k + 1;
    }
    assert routing[..k] == routing;
  }

  /** Where the turn stands after the consultation: fillers for the unverified, analyses as given. */
  ghost predicate Consulted(p: Policies, o: Outside, routing: seq<Key>, s: State) {
    && s.metadata.Keys == (set key | key in routing)
    && (forall key :: key in s.metadata ==> Gathered(p, o, key, s.metadata[key]))
    && (forall key :: key in s.results <==>
          key in s.metadata && (s.metadata[key].status == CouldNotVerify || o.answer(key).Gives?))
    && (forall key :: key in s.results ==>
          s.results[key] == if s.metadata[key].status == CouldNotVerify then Filler
                            else Genuine(o.answer(key).requestsResearch))
  }

  method Consult(p: Policies, o: Outside, routing: seq<Key>) returns (r: Result<State, ()>)
    ensures r.Ok? ==> Consulted(p, o, routing, r.value)
    ensures r.Err? ==>
              || |Distinct(routing)| > MAX_SPECIALISTS_PER_REQUEST
              || exists key :: key in routing && o.answer(key).Raises?
  {
    var metadata := GatherEvidence(p, o, routing);
    var verifiable := Verifiable(routing, metadata);
    var results: map<Key, Analysis> := map[];
    if verifiable != [] {
      FewerAreDistinct(verifiable, routing);
      var consultation :- ConsultSpecialists(o, verifiable);
      results := consultation.results;
    }
    var filled := FillUnverified(routing, State(metadata, results));
    return Ok(filled);
  }

  lemma FewerAreDistinct(part: seq<Key>, whole: seq<Key>)
    requires forall key :: key in part ==> key in whole
    ensures |Distinct(part)| <= |Distinct(whole)|
  {
    var a, b := Distinct(part), Distinct(whole);
    var few, many := set key | key in a, set key | key in b;
    DistinctCount(a);
    DistinctCount(b);
    assert few <= many;
    SmallerSet(few, many);
  }

  lemma {:induction false} DistinctCount(s: seq<Key>)
    requires forall i, j :: 0 <= i < j < |s| ==> s[i] != s[j]
    ensures |set key | key in s| == |s|
  {
    if s != [] {
      var rest, last := s[..|s| - 1], s[|s| - 1];
      DistinctCount(rest);
      assert s == rest + [last];
      assert (set key | key in s) == (set key | key in rest) + {last};
    }
  }

  lemma {:induction false} SmallerSet(few: set<Key>, many: set<Key>)
    requires few <= many
    ensures |few| <= |many|
  {
    if few != {} {
      var key :| key in few;
      SmallerSet(few - {key}, many - {key});
    }
  }

  // ----- Nora's own research -----

  predicate AsksForResearch(s: State) { NORA in s.results && s.results[NORA] == Genuine(true) }

  /** What Nora's refinement does: nothing unless she asks, and then only to her own record and analysis. */
  ghost predicate Refined(p: Policies, o: Outside, s: State, t: State)
    requires NORA in s.results ==> NORA in s.metadata
  {
    if !AsksForResearch(s) then t == s
    else if Proven(p, o, NORA) then
      && t.metadata == s.metadata[NORA := s.metadata[NORA].(
           status := LiveVerified, evidence := AcceptedOf(o.retrieved(NORA), p.secondaryAllowed(NORA)))]
      && t.results == if o.again.AgainGives? then s.results[NORA := Genuine(false)] else s.results - {NORA}
    else
      && t.metadata == s.metadata[NORA := s.metadata[NORA].(status := CouldNotVerify, evidence := [])]
      && t.results == s.results
  }

  /** Nora may ask for live research once; its evidence is judged as if it had been required. */
  method RefineNora(p: Policies, o: Outside, s: State) returns (r: Result<State, ()>)
    requires forall key :: key in s.results ==> key in s.metadata
    ensures r.Ok? ==> Refined(p, o, s, r.value)
    ensures r.Err? <==> AsksForResearch(s) && Proven(p, o, NORA) && o.again.AgainRaises?
  {
    if !AsksForResearch(s) { return Ok(s); }
    var status, evidence := Verify(p, o, NORA);
    var m := s.metadata[NORA].(status := status, evidence := evidence);
    var t := s.(metadata := s.metadata[NORA := m]);
    if status == LiveVerified {
      match o.again
      case AgainRaises => return Err(());
      case AgainGives => t := t.(results := t.results[NORA := Genuine(false)]);
      case AgainFails => t := t.(results := t.results - {NORA});
    }
    return Ok(t);
  }

  // ----- lost analyses -----

  predicate IsFilled(s: State, t: State, key: Key)
    requires key in s.metadata && key in t.metadata
  {
    t.metadata[key] == s.metadata[key].(status := CouldNotVerify) && key in t.results
  }

  predicate IsKept(s: State, t: State, key: Key)
    requires key in s.metadata && key in t.metadata
  {
    && t.metadata[key] == s.metadata[key]
    && (key in t.results <==> key in s.results)
    && (key in s.results ==> t.results[key] == s.results[key])
  }

  /** A verified specialist that lost its analysis must not open the direct path. */
  method FillLost(routing: seq<Key>, s: State) returns (t: State)
    requires s.metadata.Keys == (set key | key in routing)
    requires forall key :: key in s.results ==> key in routing
    ensures t.metadata.Keys == s.metadata.Keys
    ensures forall key :: key in t.results ==> key in routing
    ensures forall key :: key in routing ==>
      if s.metadata[key].required && key !in s.results then IsFilled(s, t, key) else IsKept(s, t, key)
  {
    t := s;
    var k := 0;
    while k < |routing|
      invariant 0 <= k <= |routing| && t.metadata.Keys == s.metadata.Keys
      invariant forall key :: key in t.results ==> key in routing
      invariant forall key :: key in routing ==>
        if key in routing[..k] && s.metadata[key].required && key !in s.results
        then IsFilled(s, t, key) else IsKept(s, t, key)
    {
      var key := routing[k];
      if t.metadata[key].required && key !in t.results {
        var m := t.metadata[key].(status := CouldNotVerify);
        t := State(t.metadata[key := m], t.results[key := Filler]);
      }
      assert routing[..k + 1] == routing[..k] + [key];
      k := k + 1;
    }
    assert routing[..k] == routing;
  }

  /** What a routed specialist ends with, before the model answers. */
  ghost predicate SettledFor(p: Policies, o: Outside, s: State, key: Key)
    requires key in s.metadata
  {
    var m := s.metadata[key];
    && m.required == p.decide(key).required
    && (m.required ==>
          && key in s.results
          && (m.status == CouldNotVerify <==> Lacks(p, o, key))
          && (!Lacks(p, o, key) ==> !s.results[key].Filler?)
          && (!Lacks(p, o, key) && key != NORA ==>
                m.status == LiveVerified && m.evidence == AcceptedOf(o.retrieved(key), p.secondaryAllowed(key))))
    && (!m.required ==>
          && (key in s.results <==> Answers(p, o, key))
          && (key in s.results ==> !s.results[key].Filler?))
  }

  ghost predicate Settled(p: Policies, o: Outside, routing: seq<Key>, s: State) {
    && s.metadata.Keys == (set key | key in routing)
    && (forall key :: key in s.results ==> key in routing)
    && (forall key :: key in routing ==> SettledFor(p, o, s, key))
  }

  lemma SettlesEach(p: Policies, o: Outside, routing: seq<Key>, s: State, t: State, x: State, key: Key)
    requires Consulted(p, o, routing, s) && Refined(p, o, s, t) && key in routing
    requires AsksForResearch(s) && Proven(p, o, NORA) ==> !o.again.AgainRaises?
    requires key in x.metadata && key in t.metadata
    requires if t.metadata[key].required && key !in t.results then IsFilled(t, x, key) else IsKept(t, x, key)
    ensures SettledFor(p, o, x, key)
  {
    assert Gathered(p, o, key, s.metadata[key]);
  }

  method ConsultAndSettle(p: Policies, o: Outside, routing: seq<Key>) returns (r: Result<State, ()>)
    ensures r.Ok? ==> Settled(p, o, routing, r.value)
    ensures r.Err? ==> |Distinct(routing)| > MAX_SPECIALISTS_PER_REQUEST || SomethingRaises(o, routing)
  {
    var consulted :- Consult(p, o, routing);
    var refined :- RefineNora(p, o, consulted);
    var settled := FillLost(routing, refined);
    forall key | key in routing ensures SettledFor(p, o, settled, key) {
      SettlesEach(p, o, routing, consulted, refined, settled, key);
    }
    return Ok(settled);
  }

  // ----- the answer -----

  /** Prose that may be shown, or the fixed failure. */
  function SafeText(o: Outside, text: string): Response {
    if o.presentable(text) then Prose(text) else SafeFailure(false)
  }

  /** The branch without analyses: Li answers alone, and may name no specialist. */
  method AnswerDirectly(o: Outside, g: Generated) returns (r: Outcome)
    ensures r.path == Direct && r.used == []
    ensures g.Structured? && g.used != [] ==> r.response == SafeFailure(false) && r.intents == []
    ensures g.Structured? && g.used == [] ==> r.response == Prose(g.text) && r.intents == g.intents
    ensures g.Unstructured? ==> r.intents == []
    ensures g.Unstructured? && o.presentable(g.text) && !o.namesSpecialist(g.text) ==> r.response == Prose(g.text)
    ensures g.Unstructured? && !(o.presentable(g.text) && !o.namesSpecialist(g.text)) ==>
              r.response == SafeFailure(false)
  {
    match g
    case Unstructured(text) =>
      var response := SafeText(o, text);
      if response.Prose? && o.namesSpecialist(response.text) { response := SafeFailure(false); }
      return Outcome(response, [], [], Direct);
    case Structured(text, used, intents) =>
      if used != [] { return Outcome(SafeFailure(false), [], [], Direct); }
      return Outcome(Prose(text), [], intents, Direct);
  }

  predicate AllIn(used: seq<Key>, results: map<Key, Analysis>) { forall key :: key in used ==> key in results }

  /** The second attempt, in prose, without specialists or actions. */
  predicate IsRepair(o: Outside, r: Outcome) {
    && o.repaired.Some?
    && r == Outcome(if o.presentable(o.repaired.value) then Prose(o.repaired.value) else SafeFailure(false),
                    [], [], Repair)
  }

  /** The branch with analyses; whatever was generated, a blocked turn is overridden at the end. */
  method Synthesize(o: Outside, g: Generated, results: map<Key, Analysis>, blocked: bool)
    returns (r: Result<Outcome, ()>)
    ensures r.Err? <==> !(g.Structured? && AllIn(g.used, results)) && o.repaired.None?
    ensures r.Ok? ==>
              && (blocked ==> IsSafe(r.value))
              && AllIn(r.value.used, results)
              && (r.value.path == Synthesis || r.value.path == Repair)
              && (r.value.path == Synthesis <==> g.Structured? && AllIn(g.used, results))
              && (r.value.path == Synthesis && !blocked ==>
                    r.value.response == Prose(g.text) && r.value.intents == g.intents
                    && r.value.used == Distinct(g.used))
              && (r.value.path == Repair ==> r.value.used == [] && r.value.intents == [])
              && (r.value.path == Repair && !blocked ==> IsRepair(o, r.value))
  {
    var answer: Outcome;
    if g.Structured? && AllIn(g.used, results) {
      answer := Outcome(Prose(g.text), Distinct(g.used), g.intents, Synthesis);
    } else {
      if o.repaired.None? { return Err(()); }
      answer := Outcome(SafeText(o, o.repaired.value), [], [], Repair);
    }
    if blocked {
      answer := Outcome(SafeFailure(true), [], [], answer.path);
    }
    r := Ok(answer);
  }

  method AnyBlocked(routing: seq<Key>, s: State) returns (blocked: bool)
    requires s.metadata.Keys == (set key | key in routing)
    ensures blocked <==> Blocked(s)
  {
    blocked := false;
    var k := 0;
    while k < |routing|
      invariant 0 <= k <= |routing|
      invariant blocked <==>
                exists key ::
                  key in routing[..k] && s.metadata[key].required && s.metadata[key].status == CouldNotVerify
    {
      var m := s.metadata[routing[k]];
      if m.required && m.status == CouldNotVerify { blocked := true; }
      assert routing[..k + 1] == routing[..k] + [routing[k]];
      k := k + 1;
    }
    assert routing[..k] == routing;
  }

  /** A specialist that required evidence has a genuine analysis and, other than Nora, the evidence. */
  ghost predicate Answered(p: Policies, s: State, key: Key) {
    && key in s.metadata && key in s.results && !s.results[key].Filler?
    && (key != NORA ==>
          && s.metadata[key].status == LiveVerified
          && Sufficient(s.metadata[key].evidence, p.decide(key), p.secondaryAllowed(key)))
  }

  /** What an unblocked turn answers: Li alone without any analysis, else from the analyses there are. */
  ghost predicate IsAnswer(p: Policies, o: Outside, routing: seq<Key>, g: Generated, r: Outcome) {
    if forall key :: key in routing ==> !Answers(p, o, key) then
      && r.path == Direct && r.used == []
      && (g.Structured? && g.used == [] ==> r.response == Prose(g.text) && r.intents == g.intents)
      && (g.Structured? && g.used != [] ==> r.response == SafeFailure(false) && r.intents == [])
      && (g.Unstructured? ==>
            && r.intents == []
            && r.response == if o.presentable(g.text) && !o.namesSpecialist(g.text) then Prose(g.text)
                             else SafeFailure(false))
    else if g.Structured? && forall key :: key in g.used ==> key in routing && Answers(p, o, key) then
      r == Outcome(Prose(g.text), Distinct(g.used), g.intents, Synthesis)
    else IsRepair(o, r)
  }

  lemma UnblockedState(p: Policies, o: Outside, routing: seq<Key>, s: State)
    requires Settled(p, o, routing, s)
    ensures Blocked(s) <==> MustBlock(p, o, routing)
    ensures !Blocked(s) ==>
              && (forall key :: key in s.results <==> key in routing && Answers(p, o, key))
              && (forall key :: key in s.results ==> !s.results[key].Filler?)
              && (forall key :: key in routing && p.decide(key).required ==> Answered(p, s, key))
  {
    assert forall key :: key in routing ==> SettledFor(p, o, s, key);
    assert forall key :: key in routing && p.decide(key).required && !Lacks(p, o, key) ==> Answered(p, s, key);
  }

  /**
   The gate, for every output of the specialists, the research provider and the model. The turn is
   blocked if and only if some routed specialist that requires evidence lacks a compliant provider,
   sufficient evidence or its analysis, and then the outcome is the fixed safe response with no
   specialist and no action. Otherwise it is the model's answer: each routed specialist that required
   evidence has a genuine analysis, all but Nora have sufficient live evidence for it, and whoever is
   named in the answer gave a genuine analysis. Errors come from outside, or from too many specialists.
   */
  method TalkToLi(p: Policies, o: Outside, routing: seq<Key>, turnRequiresEvidence: bool)
    returns (r: Result<Outcome, ()>, s: State)
    ensures routing == [] && turnRequiresEvidence ==> r == Ok(Outcome(SafeFailure(true), [], [], DirectBlocked))
    ensures r.Ok? ==>
              forall key :: key in routing && key != NORA && p.decide(key).required && !p.providerCompliant(key) ==>
                IsSafe(r.value)
    ensures r.Ok? && !(routing == [] && turnRequiresEvidence) ==>
      && (Blocked(s) <==> MustBlock(p, o, routing))
      && (MustBlock(p, o, routing) ==> IsSafe(r.value))
      && (!MustBlock(p, o, routing) ==> o.generated.Some? && IsAnswer(p, o, routing, o.generated.value, r.value))
      && (!Blocked(s) ==> forall key :: key in routing && p.decide(key).required ==> Answered(p, s, key))
      && AllIn(r.value.used, s.results)
      && (!Blocked(s) ==> forall key :: key in s.results ==> !s.results[key].Filler?)
      && (r.value.path == Direct ==> forall key :: key in routing ==> !p.decide(key).required)
      && (r.value.path == Repair ==> r.value.used == [] && r.value.intents == [])
    ensures r.Err? ==> |Distinct(routing)| > MAX_SPECIALISTS_PER_REQUEST || SomethingRaises(o, routing)
  {
    s := State(map[], map[]);
    if routing == [] && turnRequiresEvidence {
      return Ok(Outcome(SafeFailure(true), [], [], DirectBlocked)), s;
    }
    var blocked := false;
    if routing != [] {
      s :- ConsultAndSettle(p, o, routing);
      blocked := AnyBlocked(routing, s);
    }
    UnblockedState(p, o, routing, s);
    if o.generated.None? { return Err(()), s; }
    if routing == [] || |s.results| == 0 {
      var answer := AnswerDirectly(o, o.generated.value);
      r := Ok(answer);
    } else {
      r := Synthesize(o, o.generated.value, s.results, blocked);
    }
  }
}
