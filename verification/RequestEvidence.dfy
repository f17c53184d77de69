/** The evidence a model request is dispatched under: a node set that matches its canonical revisions exactly. */
module RequestEvidence {
  import opened Wrappers

  type Id = nat

  datatype NodeKind =
    | ExternalEffect
    | ConnectionRevision
    | ConnectionQualificationRevision
    | BindingSnapshot
    | ModelRevision
    | ModelQualificationRevision
    | RequestShapeRevision
    | SamplingRevision
    | LimitsRevision
    | ToolSchemaRevision
    | GovernedInputMaterial
    | QualificationTarget
    | ProbeNode

  datatype Node = Node(kind: NodeKind, reference: Id, version: Option<nat>, ordinal: Option<string>)

  datatype CauseKind = RunStep | QualificationProbe | EmbeddingJob

  datatype RequestKind = ModelsList | ChatCompletions | Embeddings

  datatype Role = System | User | Assistant | Tool

  datatype Revision = Revision(id: Id, version: nat)

  datatype Canonical = Canonical(
    shape: Revision, kind: RequestKind, stream: bool, roles: seq<Role>,
    sampling: Option<Revision>, limits: Revision, tools: seq<Revision>)

  datatype Identity = Identity(root: Id, effect: Id, cause: CauseKind, causeId: Id, binding: Option<Id>,
                               target: Option<Id>)

  datatype Evidence = Evidence(identity: Identity, canonical: Canonical, nodes: seq<Node>)

  // ----- decimal ordinals

  function Digit(d: nat): char
    requires d < 10
  {
    "0123456789"[d]
  }

  function Decimal(n: nat): (s: string)
    ensures s != []
  {
    if n < 10 then [Digit(n)] else Decimal(n / 10) + [Digit(n % 10)]
  }

  lemma DecimalShape(n: nat)
    ensures |Decimal(n)| == 1 <==> n < 10
    ensures Decimal(n)[|Decimal(n)| - 1] == Digit(n % 10)
    ensures n >= 10 ==> Decimal(n)[..|Decimal(n)| - 1] == Decimal(n / 10)
  {
  }

  /** Different numbers have different ordinals. */
  lemma {:induction false} DecimalInjective(m: nat, n: nat)
    requires Decimal(m) == Decimal(n)
    ensures m == n
    decreases m
  {
    DecimalShape(m);
    DecimalShape(n);
    if m >= 10 {
      DecimalInjective(m / 10, n / 10);
    }
  }

  // ----- the exactness check

  function OfKind(nodes: seq<Node>, kind: NodeKind): seq<Node> {
    if nodes == [] then [] else
      OfKind(nodes[..|nodes| - 1], kind) + (if nodes[|nodes| - 1].kind == kind then [nodes[|nodes| - 1]] else [])
  }

  lemma {:induction false} OfKindSplits(a: seq<Node>, b: seq<Node>, kind: NodeKind)
    ensures OfKind(a + b, kind) == OfKind(a, kind) + OfKind(b, kind)
    decreases |b|
  {
    if b == [] {
      assert a + b == a;
    } else {
      assert (a + b)[..|a + b| - 1] == a + b[..|b| - 1];
      OfKindSplits(a, b[..|b| - 1], kind);
    }
  }

  /** Exactly one node of the kind, and it names this revision at this version. */
  predicate ExactVersioned(nodes: seq<Node>, kind: NodeKind, r: Revision) {
    var found := OfKind(nodes, kind);
    |found| == 1 && found[0].reference == r.id && found[0].version == Some(r.version)
  }

  /** One node of the kind stands among these, and it names this revision at this version. */
  ghost predicate NamesAlone(nodes: seq<Node>, kind: NodeKind, r: Revision) {
    exists k :: 0 <= k < |nodes| && AloneAt(nodes, kind, k)
                && nodes[k].reference == r.id && nodes[k].version == Some(r.version)
  }

  ghost predicate AloneAt(nodes: seq<Node>, kind: NodeKind, k: nat)
    requires k < |nodes|
  {
    nodes[k].kind == kind && forall j :: 0 <= j < |nodes| && nodes[j].kind == kind ==> j == k
  }

  lemma {:induction false} NoneOfKind(nodes: seq<Node>, kind: NodeKind)
    ensures OfKind(nodes, kind) == [] <==> forall j :: 0 <= j < |nodes| ==> nodes[j].kind != kind
    decreases |nodes|
  {
    if nodes != [] {
      NoneOfKind(nodes[..|nodes| - 1], kind);
    }
  }

  lemma {:induction false} AloneOfKind(nodes: seq<Node>, kind: NodeKind, k: nat)
    requires k < |nodes| && AloneAt(nodes, kind, k)
    ensures OfKind(nodes, kind) == [nodes[k]]
    decreases |nodes|
  {
    var n := |nodes| - 1;
    if k < n {
      AloneOfKind(nodes[..n], kind, k);
    } else {
      NoneOfKind(nodes[..n], kind);
    }
  }

  lemma {:induction false} OneIsAlone(nodes: seq<Node>, kind: NodeKind) returns (k: nat)
    requires |OfKind(nodes, kind)| == 1
    ensures k < |nodes| && AloneAt(nodes, kind, k)
    decreases |nodes|
  {
    var n := |nodes| - 1;
    if nodes[n].kind == kind {
      NoneOfKind(nodes[..n], kind);
      k := n;
    } else {
      k := OneIsAlone(nodes[..n], kind);
    }
  }

  /** The check finds what it should: a second node of the kind, or one that names another revision, is refused. */
  lemma ExactIffNamedAlone(nodes: seq<Node>, kind: NodeKind, r: Revision)
    ensures ExactVersioned(nodes, kind, r) <==> NamesAlone(nodes, kind, r)
  {
    if ExactVersioned(nodes, kind, r) {
      var k := OneIsAlone(nodes, kind);
      AloneOfKind(nodes, kind, k);
    }
    if k :| 0 <= k < |nodes| && AloneAt(nodes, kind, k)
            && nodes[k].reference == r.id && nodes[k].version == Some(r.version) {
      AloneOfKind(nodes, kind, k);
    }
  }

  predicate ToolsExact(nodes: seq<Node>, tools: seq<Revision>) {
    var found := OfKind(nodes, ToolSchemaRevision);
    && |found| == |tools|
    && forall i :: 0 <= i < |found| ==>
         && found[i].reference == tools[i].id && found[i].version == Some(tools[i].version)
         && found[i].ordinal == Some(Decimal(i))
  }

  predicate CanonicalNodesExact(c: Canonical, nodes: seq<Node>) {
    var inputs := |OfKind(nodes, GovernedInputMaterial)|;
    && ExactVersioned(nodes, RequestShapeRevision, c.shape)
    && ExactVersioned(nodes, LimitsRevision, c.limits)
    && (if c.sampling.Some? then ExactVersioned(nodes, SamplingRevision, c.sampling.value)
        else OfKind(nodes, SamplingRevision) == [])
    && ToolsExact(nodes, c.tools)
    && match c.kind
       case ModelsList => !c.stream && c.roles == [] && c.sampling.None? && c.tools == [] && inputs == 0
       case ChatCompletions => c.sampling.Some? && c.roles != [] && |c.roles| == inputs
       case Embeddings => !c.stream && c.roles == [] && c.sampling.None? && c.tools == [] && inputs > 0
  }

  predicate CauseValid(i: Identity) {
    match i.cause
    case RunStep => i.binding.Some? && i.target.None?
    case QualificationProbe => i.binding.None? && i.target.Some?
    case EmbeddingJob => i.binding.Some? && i.target.None?
  }

  function New(i: Identity, c: Canonical, nodes: seq<Node>): Result<Evidence, ()> {
    if !CauseValid(i) || nodes == [] || !CanonicalNodesExact(c, nodes) then Err(()) else Ok(Evidence(i, c, nodes))
  }

  /** The nodes that a list of tools asks for, in order and numbered from zero. */
  function ToolNodes(tools: seq<Revision>): (ns: seq<Node>)
    ensures |ns| == |tools|
    ensures forall i :: 0 <= i < |ns| ==>
              ns[i] == Node(ToolSchemaRevision, tools[i].id, Some(tools[i].version), Some(Decimal(i)))
  {
    seq(|tools|, i requires 0 <= i < |tools| =>
      Node(ToolSchemaRevision, tools[i].id, Some(tools[i].version), Some(Decimal(i))))
  }

  lemma {:induction false} AllOfKind(nodes: seq<Node>, kind: NodeKind)
    ensures forall i :: 0 <= i < |OfKind(nodes, kind)| ==> OfKind(nodes, kind)[i].kind == kind
    decreases |nodes|
  {
    if nodes != [] {
      AllOfKind(nodes[..|nodes| - 1], kind);
    }
  }

  lemma ToolsExactIff(nodes: seq<Node>, tools: seq<Revision>)
    ensures ToolsExact(nodes, tools) <==> OfKind(nodes, ToolSchemaRevision) == ToolNodes(tools)
  {
    AllOfKind(nodes, ToolSchemaRevision);
    var found := OfKind(nodes, ToolSchemaRevision);
    if ToolsExact(nodes, tools) {
      forall i | 0 <= i < |found| ensures found[i] == ToolNodes(tools)[i] {
        assert found[i].kind == ToolSchemaRevision;
      }
    }
  }

  /** Only a chat may stream, sample, use tools or give roles; it samples and has a role for each of its inputs, one at
      least; embeddings have inputs, and a list of models has none. */
  predicate ShapeFits(c: Canonical, inputs: nat) {
    && (c.stream || c.sampling.Some? || c.tools != [] || c.roles != [] ==> c.kind.ChatCompletions?)
    && (c.kind.ChatCompletions? ==> c.sampling.Some? && inputs == |c.roles| > 0)
    && (c.kind.Embeddings? <==> inputs > 0 && c.roles == [])
  }

  /** When evidence is accepted: a probe names a target and no binding, anything else a binding and no target; shape,
      limits and sampling are named by one node each, tools by theirs in order, and the request's shape fits. */
  lemma AcceptedIff(i: Identity, c: Canonical, nodes: seq<Node>)
    ensures New(i, c, nodes).Ok?
       <==> && (i.target.Some? <==> i.cause.QualificationProbe?) && (i.binding.Some? <==> !i.cause.QualificationProbe?)
            && NamesAlone(nodes, RequestShapeRevision, c.shape) && NamesAlone(nodes, LimitsRevision, c.limits)
            && (if c.sampling.Some? then NamesAlone(nodes, SamplingRevision, c.sampling.value)
                else forall j :: 0 <= j < |nodes| ==> nodes[j].kind != SamplingRevision)
            && OfKind(nodes, ToolSchemaRevision) == ToolNodes(c.tools)
            && ShapeFits(c, |OfKind(nodes, GovernedInputMaterial)|)
  {
    ExactIffNamedAlone(nodes, RequestShapeRevision, c.shape);
    ExactIffNamedAlone(nodes, LimitsRevision, c.limits);
    if c.sampling.Some? {
      ExactIffNamedAlone(nodes, SamplingRevision, c.sampling.value);
    } else {
      NoneOfKind(nodes, SamplingRevision);
    }
    ToolsExactIff(nodes, c.tools);
  }

  // ----- the two constructors

  datatype References = References(
    effect: Id, connection: Id, connectionQualification: Id, binding: Id, model: Id, modelQualification: Id)

  function Plain(kind: NodeKind, reference: Id): Node {
    Node(kind, reference, None, None)
  }

  function Versioned(kind: NodeKind, reference: Id, version: nat): Node {
    Node(kind, reference, Some(version), None)
  }

  function Leading(r: References): seq<Node> {
    [Plain(ExternalEffect, r.effect), Plain(ConnectionRevision, r.connection),
     Plain(ConnectionQualificationRevision, r.connectionQualification), Plain(BindingSnapshot, r.binding),
     Plain(ModelRevision, r.model), Plain(ModelQualificationRevision, r.modelQualification)]
  }

  function Input(material: Id, ordinal: nat): Node {
    Node(GovernedInputMaterial, material, None, Some(Decimal(ordinal)))
  }

  /** The sources in order, numbered from zero. */
  function Inputs(sources: seq<Id>): (ns: seq<Node>)
    ensures |ns| == |sources| && forall i :: 0 <= i < |ns| ==> ns[i] == Input(sources[i], i)
  {
    seq(|sources|, i requires 0 <= i < |sources| => Input(sources[i], i))
  }

  lemma {:induction false} OnlyInputs(ns: seq<Node>, kind: NodeKind)
    requires forall i :: 0 <= i < |ns| ==> ns[i].kind.GovernedInputMaterial?
    ensures OfKind(ns, kind) == if kind.GovernedInputMaterial? then ns else []
    decreases |ns|
  {
    if ns != [] {
      OnlyInputs(ns[..|ns| - 1], kind);
    }
  }

  /** One node of the kind, which carries this reference and no version. */
  ghost predicate Carries(nodes: seq<Node>, kind: NodeKind, reference: Id) {
    exists k :: 0 <= k < |nodes| && AloneAt(nodes, kind, k) && nodes[k] == Plain(kind, reference)
  }

  ghost predicate CarriesAll(nodes: seq<Node>, r: References) {
    && Carries(nodes, ExternalEffect, r.effect)
    && Carries(nodes, ConnectionRevision, r.connection)
    && Carries(nodes, ConnectionQualificationRevision, r.connectionQualification)
    && Carries(nodes, BindingSnapshot, r.binding)
    && Carries(nodes, ModelRevision, r.model)
    && Carries(nodes, ModelQualificationRevision, r.modelQualification)
  }

  /** Each reference stands once, under its own kind. */
  lemma LeadingCarriesAll(r: References, rest: seq<Node>)
    requires forall j :: 0 <= j < |rest| ==> Counted(rest[j].kind)
    ensures CarriesAll(Leading(r) + rest, r)
  {
    var nodes := Leading(r) + rest;
    assert forall j :: 6 <= j < |nodes| ==> nodes[j] == rest[j - 6] && Counted(nodes[j].kind);
    assert AloneAt(nodes, ExternalEffect, 0);
    assert AloneAt(nodes, ConnectionRevision, 1);
    assert AloneAt(nodes, ConnectionQualificationRevision, 2);
    assert AloneAt(nodes, BindingSnapshot, 3);
    assert AloneAt(nodes, ModelRevision, 4);
    assert AloneAt(nodes, ModelQualificationRevision, 5);
  }

  lemma LeadingHasNone(r: References, kind: NodeKind)
    requires Counted(kind)
    ensures OfKind(Leading(r), kind) == []
  {
    var ns := Leading(r);
    assert OfKind(ns[..1][..0], kind) == [];
    assert ns[..5][..4] == ns[..4] && ns[..4][..3] == ns[..3] && ns[..3][..2] == ns[..2] && ns[..2][..1] == ns[..1];
    assert OfKind(ns[..1], kind) == [];
    assert OfKind(ns[..2], kind) == [];
    assert OfKind(ns[..3], kind) == [];
    assert OfKind(ns[..4], kind) == [];
    assert OfKind(ns[..5], kind) == [];
  }

  lemma OneOfKind(n: Node, kind: NodeKind)
    ensures OfKind([n], kind) == if n.kind == kind then [n] else []
  {
  }

  /** The kinds the check counts. */
  predicate Counted(kind: NodeKind) {
    kind.RequestShapeRevision? || kind.SamplingRevision? || kind.LimitsRevision? || kind.ToolSchemaRevision?
    || kind.GovernedInputMaterial?
  }

  /** Fixed leading references, then revision nodes of distinct kinds, then the inputs. */
  lemma {:induction false} RevisionsThenInputs(lead: seq<Node>, revisions: seq<Node>, inputs: seq<Node>, kind: NodeKind)
    requires OfKind(lead, kind) == [] && forall i :: 0 <= i < |inputs| ==> inputs[i].kind.GovernedInputMaterial?
    ensures OfKind(lead + revisions + inputs, kind)
            == OfKind(revisions, kind) + (if kind.GovernedInputMaterial? then inputs else [])
  {
    OfKindSplits(lead, revisions, kind);
    OfKindSplits(lead + revisions, inputs, kind);
    OnlyInputs(inputs, kind);
  }

  function EmbeddingRevisions(shape: Id, limits: Id): seq<Node> {
    [Versioned(RequestShapeRevision, shape, 1), Versioned(LimitsRevision, limits, 1)]
  }

  function EmbeddingCanonical(shape: Id, limits: Id): Canonical {
    Canonical(Revision(shape, 1), Embeddings, false, [], None, Revision(limits, 1), [])
  }

  lemma EmbeddingKinds(shape: Id, limits: Id, kind: NodeKind)
    ensures OfKind(EmbeddingRevisions(shape, limits), kind)
         == if kind.RequestShapeRevision? then [Versioned(RequestShapeRevision, shape, 1)]
            else if kind.LimitsRevision? then [Versioned(LimitsRevision, limits, 1)] else []
  {
    var s, l := Versioned(RequestShapeRevision, shape, 1), Versioned(LimitsRevision, limits, 1);
    assert [s, l] == [s] + [l];
    OfKindSplits([s], [l], kind);
    OneOfKind(s, kind);
    OneOfKind(l, kind);
  }

  lemma EmbeddingOfKind(r: References, shape: Id, limits: Id, sources: seq<Id>, nodes: seq<Node>, kind: NodeKind)
    requires nodes == Leading(r) + EmbeddingRevisions(shape, limits) + Inputs(sources) && Counted(kind)
    ensures OfKind(nodes, kind)
         == if kind.RequestShapeRevision? then [Versioned(RequestShapeRevision, shape, 1)]
            else if kind.LimitsRevision? then [Versioned(LimitsRevision, limits, 1)]
            else if kind.GovernedInputMaterial? then Inputs(sources) else []
  {
    LeadingHasNone(r, kind);
    EmbeddingKinds(shape, limits, kind);
    RevisionsThenInputs(Leading(r), EmbeddingRevisions(shape, limits), Inputs(sources), kind);
  }

  lemma EmbeddingIsExact(r: References, shape: Id, limits: Id, sources: seq<Id>, nodes: seq<Node>)
    requires nodes == Leading(r) + EmbeddingRevisions(shape, limits) + Inputs(sources) && sources != []
    ensures CanonicalNodesExact(EmbeddingCanonical(shape, limits), nodes)
    ensures OfKind(nodes, GovernedInputMaterial) == Inputs(sources)
  {
    EmbeddingOfKind(r, shape, limits, sources, nodes, RequestShapeRevision);
    EmbeddingOfKind(r, shape, limits, sources, nodes, LimitsRevision);
    EmbeddingOfKind(r, shape, limits, sources, nodes, SamplingRevision);
    EmbeddingOfKind(r, shape, limits, sources, nodes, ToolSchemaRevision);
    EmbeddingOfKind(r, shape, limits, sources, nodes, GovernedInputMaterial);
  }

  lemma NamedAlone(nodes: seq<Node>, kind: NodeKind, r: Revision)
    requires OfKind(nodes, kind) == [Versioned(kind, r.id, r.version)]
    ensures NamesAlone(nodes, kind, r)
  {
    ExactIffNamedAlone(nodes, kind, r);
  }

  /** The nodes of an embedding job carry each reference once, under its own kind. */
  lemma EmbeddingCarriesAll(r: References, shape: Id, limits: Id, sources: seq<Id>)
    ensures CarriesAll(Leading(r) + EmbeddingRevisions(shape, limits) + Inputs(sources), r)
  {
    var rest := EmbeddingRevisions(shape, limits) + Inputs(sources);
    LeadingCarriesAll(r, rest);
    assert Leading(r) + EmbeddingRevisions(shape, limits) + Inputs(sources) == Leading(r) + rest;
  }

  /** And they name its shape and its limits, each at version one. */
  lemma EmbeddingNamesRevisions(r: References, shape: Id, limits: Id, sources: seq<Id>, nodes: seq<Node>)
    requires nodes == Leading(r) + EmbeddingRevisions(shape, limits) + Inputs(sources)
    ensures NamesAlone(nodes, RequestShapeRevision, Revision(shape, 1))
    ensures NamesAlone(nodes, LimitsRevision, Revision(limits, 1))
  {
    EmbeddingOfKind(r, shape, limits, sources, nodes, RequestShapeRevision);
    NamedAlone(nodes, RequestShapeRevision, Revision(shape, 1));
    EmbeddingOfKind(r, shape, limits, sources, nodes, LimitsRevision);
    NamedAlone(nodes, LimitsRevision, Revision(limits, 1));
  }

  method PushInputs(leading: seq<Node>, sources: seq<Id>) returns (nodes: seq<Node>)
    ensures nodes == leading + Inputs(sources)
  {
    nodes := leading;
    for ordinal := 0 to |sources|
      invariant nodes == leading + Inputs(sources)[..ordinal]
    {
      assert Inputs(sources)[..ordinal + 1] == Inputs(sources)[..ordinal] + [Input(sources[ordinal], ordinal)];
      nodes := nodes + [Input(sources[ordinal], ordinal)];
    }
    assert Inputs(sources)[..|sources|] == Inputs(sources);
  }

  /** Evidence for an embedding job: refused only for an empty source list; otherwise always built, and its governed
      inputs are exactly the sources, in order, numbered from zero. */
  method ForEmbeddingJob(root: Id, r: References, job: Id, shape: Id, limits: Id, sources: seq<Id>)
    returns (e: Result<Evidence, ()>)
    ensures e.Ok? <==> sources != []
    ensures e.Ok? ==> CanonicalNodesExact(e.value.canonical, e.value.nodes)
    ensures e.Ok? ==> OfKind(e.value.nodes, GovernedInputMaterial) == Inputs(sources)
    ensures e.Ok? ==> e.value.identity == Identity(root, r.effect, EmbeddingJob, job, Some(r.binding), None)
    ensures e.Ok? ==> e.value.nodes == Leading(r) + EmbeddingRevisions(shape, limits) + Inputs(sources)
  {
    if sources == [] {
      return Err(());
    }
    var nodes := PushInputs(Leading(r) + EmbeddingRevisions(shape, limits), sources);
    EmbeddingIsExact(r, shape, limits, sources, nodes);
    e := New(Identity(root, r.effect, EmbeddingJob, job, Some(r.binding), None), EmbeddingCanonical(shape, limits),
             nodes);
  }

  function StepRevisions(shape: Id, sampling: Id, limits: Id): seq<Node> {
    [Versioned(RequestShapeRevision, shape, 1), Versioned(SamplingRevision, sampling, 1),
     Versioned(LimitsRevision, limits, 1)]
  }

  function StepCanonical(shape: Id, sampling: Id, limits: Id): Canonical {
    Canonical(Revision(shape, 1), ChatCompletions, false, [User], Some(Revision(sampling, 1)), Revision(limits, 1), [])
  }

  function ForGovernedRunStep(root: Id, r: References, run: Id, shape: Id, sampling: Id, limits: Id,
                              material: Id): Result<Evidence, ()> {
    New(Identity(root, r.effect, RunStep, run, Some(r.binding), None), StepCanonical(shape, sampling, limits),
        Leading(r) + StepRevisions(shape, sampling, limits) + Inputs([material]))
  }

  lemma StepKinds(shape: Id, sampling: Id, limits: Id, kind: NodeKind)
    ensures OfKind(StepRevisions(shape, sampling, limits), kind)
         == if kind.RequestShapeRevision? then [Versioned(RequestShapeRevision, shape, 1)]
            else if kind.SamplingRevision? then [Versioned(SamplingRevision, sampling, 1)]
            else if kind.LimitsRevision? then [Versioned(LimitsRevision, limits, 1)] else []
  {
    var s, m, l := Versioned(RequestShapeRevision, shape, 1), Versioned(SamplingRevision, sampling,
                             1), Versioned(LimitsRevision, limits, 1);
    assert [s, m, l] == [s] + [m] + [l];
    OfKindSplits([s], [m], kind);
    OfKindSplits([s] + [m], [l], kind);
    OneOfKind(s, kind);
    OneOfKind(m, kind);
    OneOfKind(l, kind);
  }

  lemma StepOfKind(r: References, shape: Id, sampling: Id, limits: Id, material: Id, nodes: seq<Node>, kind: NodeKind)
    requires nodes == Leading(r) + StepRevisions(shape, sampling, limits) + Inputs([material]) && Counted(kind)
    ensures OfKind(nodes, kind)
         == if kind.RequestShapeRevision? then [Versioned(RequestShapeRevision, shape, 1)]
            else if kind.SamplingRevision? then [Versioned(SamplingRevision, sampling, 1)]
            else if kind.LimitsRevision? then [Versioned(LimitsRevision, limits, 1)]
            else if kind.GovernedInputMaterial? then Inputs([material]) else []
  {
    LeadingHasNone(r, kind);
    StepKinds(shape, sampling, limits, kind);
    RevisionsThenInputs(Leading(r), StepRevisions(shape, sampling, limits), Inputs([material]), kind);
  }

  lemma StepIsExact(r: References, shape: Id, sampling: Id, limits: Id, material: Id, nodes: seq<Node>)
    requires nodes == Leading(r) + StepRevisions(shape, sampling, limits) + Inputs([material])
    ensures CanonicalNodesExact(StepCanonical(shape, sampling, limits), nodes)
    ensures OfKind(nodes, GovernedInputMaterial) == Inputs([material])
  {
    StepOfKind(r, shape, sampling, limits, material, nodes, RequestShapeRevision);
    StepOfKind(r, shape, sampling, limits, material, nodes, SamplingRevision);
    StepOfKind(r, shape, sampling, limits, material, nodes, LimitsRevision);
    StepOfKind(r, shape, sampling, limits, material, nodes, ToolSchemaRevision);
    StepOfKind(r, shape, sampling, limits, material, nodes, GovernedInputMaterial);
  }

  /** The nodes of a run step carry each reference once, under its own kind. */
  lemma StepCarriesAll(r: References, shape: Id, sampling: Id, limits: Id, material: Id)
    ensures CarriesAll(Leading(r) + StepRevisions(shape, sampling, limits) + Inputs([material]), r)
  {
    var rest := StepRevisions(shape, sampling, limits) + Inputs([material]);
    LeadingCarriesAll(r, rest);
    assert Leading(r) + StepRevisions(shape, sampling, limits) + Inputs([material]) == Leading(r) + rest;
  }

  /** And they name its shape, its sampling and its limits, each at version one. */
  lemma StepNamesRevisions(r: References, shape: Id, sampling: Id, limits: Id, material: Id, nodes: seq<Node>)
    requires nodes == Leading(r) + StepRevisions(shape, sampling, limits) + Inputs([material])
    ensures NamesAlone(nodes, RequestShapeRevision, Revision(shape, 1))
    ensures NamesAlone(nodes, SamplingRevision, Revision(sampling, 1))
    ensures NamesAlone(nodes, LimitsRevision, Revision(limits, 1))
  {
    StepOfKind(r, shape, sampling, limits, material, nodes, RequestShapeRevision);
    NamedAlone(nodes, RequestShapeRevision, Revision(shape, 1));
    StepOfKind(r, shape, sampling, limits, material, nodes, SamplingRevision);
    NamedAlone(nodes, SamplingRevision, Revision(sampling, 1));
    StepOfKind(r, shape, sampling, limits, material, nodes, LimitsRevision);
    NamedAlone(nodes, LimitsRevision, Revision(limits, 1));
  }

  /** Evidence for a governed run step is always built, with its one input numbered zero. */
  lemma RunStepEvidenceAlwaysBuilt(root: Id, r: References, run: Id, shape: Id, sampling: Id, limits: Id, material: Id)
    ensures var e := ForGovernedRunStep(root, r, run, shape, sampling, limits, material);
            && e.Ok?
            && CanonicalNodesExact(e.value.canonical, e.value.nodes)
            && OfKind(e.value.nodes, GovernedInputMaterial) == Inputs([material])
            && e.value.nodes == Leading(r) + StepRevisions(shape, sampling, limits) + Inputs([material])
    ensures Inputs([material]) == [Node(GovernedInputMaterial, material, None, Some("0"))]
  {
    StepIsExact(r, shape, sampling, limits, material,
                Leading(r) + StepRevisions(shape, sampling, limits) + Inputs([material]));
    assert Inputs([material])[0] == Input(material, 0);
  }

  /** An accepted node set is tight: with one more shape, sampling, limits or tool node it is refused, whatever that
      node names; one more governed input is accepted for embeddings only; any other node changes nothing. */
  lemma ExactIsTight(c: Canonical, nodes: seq<Node>, extra: Node)
    requires CanonicalNodesExact(c, nodes)
    ensures CanonicalNodesExact(c, nodes + [extra])
       <==> !Counted(extra.kind) || (extra.kind.GovernedInputMaterial? && c.kind.Embeddings?)
  {
    OneMoreOfKind(nodes, extra, RequestShapeRevision);
    OneMoreOfKind(nodes, extra, SamplingRevision);
    OneMoreOfKind(nodes, extra, LimitsRevision);
    OneMoreOfKind(nodes, extra, ToolSchemaRevision);
    OneMoreOfKind(nodes, extra, GovernedInputMaterial);
  }

  lemma OneMoreOfKind(nodes: seq<Node>, extra: Node, kind: NodeKind)
    ensures OfKind(nodes + [extra], kind) == OfKind(nodes, kind) + (if extra.kind == kind then [extra] else [])
  {
    OfKindSplits(nodes, [extra], kind);
    OneOfKind(extra, kind);
  }
}
