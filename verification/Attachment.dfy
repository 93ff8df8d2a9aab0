/** Which sources belong to a machine, and the order in which they are listed (internal/controller/helpers.go). */
module Attachment {
  import opened Wrappers
  import opened Text
  import opened Ordering
  import opened Destinations

  datatype Source = Source(machineRef: Name, destinationPath: string, deleteExtra: bool)

  /** `strategy` is absent when `spec.strategy.type` is not one the controller knows. */
  datatype Machine = Machine(ref: Name, strategy: Option<Strategy>, allowed: seq<string>, retentionEmpty: bool)

  type Sources = map<Name, Source>

  ghost predicate ValidNames(sources: Sources) {
    forall n :: n in sources ==> n.Valid()
  }

  function ResolveReference(ref: Name, defaultNamespace: string): Option<Name> {
    if ref.name == "" then None
    else
      var ns := if ref.ns != "" then ref.ns else defaultNamespace;
      if ns == "" then None else Some(Name(ns, ref.name))
  }

  predicate NamespaceAllowed(machineNamespace: string, allowed: seq<string>, ns: string) {
    ns != "" &&
    var effective := if allowed == [] then ["."] else allowed;
    exists item :: item in effective && (item == "*" || ns == if item == "." then machineNamespace else item)
  }

  /** A source counts for a machine when it names it and its namespace is allowed. */
  predicate Attached(machine: Machine, sources: Sources, n: Name) {
    n in sources && ResolveReference(sources[n].machineRef, n.ns) == Some(machine.ref)
    && NamespaceAllowed(machine.ref.ns, machine.allowed, n.ns)
  }

  predicate IsMirror(machine: Machine) {
    machine.strategy == Some(Mirror)
  }

  predicate NameLess(a: Name, b: Name) {
    Less(a.ToText(), b.ToText())
  }

  lemma NameOrder(names: seq<Name>)
    requires forall n :: n in names ==> n.Valid()
    ensures Transitive(NameLess) && Asymmetric(NameLess) && Comparable(names, NameLess)
  {
    LessIsStrictOrder();
    forall a: Name, b: Name, c: Name | NameLess(a, b) && NameLess(b, c) ensures NameLess(a, c) {
      LessTransitive(a.ToText(), b.ToText(), c.ToText());
    }
    forall a: Name, b: Name | NameLess(a, b) ensures !NameLess(b, a) {
      LessTrichotomy(a.ToText(), b.ToText());
    }
    forall i, j | 0 <= i < |names| && 0 <= j < |names| && names[i] != names[j]
      ensures NameLess(names[i], names[j]) || NameLess(names[j], names[i])
    {
      TextInjective(names[i], names[j]);
      LessTrichotomy(names[i].ToText(), names[j].ToText());
    }
  }

  lemma TextInjective(a: Name, b: Name)
    requires a.Valid() && b.Valid()
    ensures a.ToText() == b.ToText() ==> a == b
  {
    if a.ToText() == b.ToText() {
      FirstSeparator(a.ns, a.name, b.ns, b.name, '/');
    }
  }

  /** `sort.Slice` by the text of the names. */
  method SortNames(names: seq<Name>) returns (r: seq<Name>)
    requires NoDuplicates(names) && forall n :: n in names ==> n.Valid()
    ensures Increasing(r, NameLess) && NoDuplicates(r) && forall n :: n in r <==> n in names
  {
    NameOrder(names);
    SortByIncreasing(names, NameLess);
    r := SortBy(names, NameLess);
  }

  /** A source is attached to a machine iff its reference names it, an empty namespace standing for the source's own,
      and the machine lets the source's namespace in: its own one if it lists none, and otherwise those it lists, `.`
      standing for its own and `*` for all. */
  lemma AttachedIff(machine: Machine, sources: Sources, n: Name)
    requires n in sources && n.Valid() && machine.ref.Valid()
    ensures Attached(machine, sources, n) <==>
      sources[n].machineRef.name == machine.ref.name
      && (sources[n].machineRef.ns == machine.ref.ns || (sources[n].machineRef.ns == "" && n.ns == machine.ref.ns))
      && (if machine.allowed == [] then n.ns == machine.ref.ns
          else "*" in machine.allowed || n.ns in machine.allowed || ("." in machine.allowed && n.ns == machine.ref.ns))
  {
    assert n.ns != "" && machine.ref.ns != "" && machine.ref.name != "";
    NoLabels(n.ns);
    if machine.allowed == [] { assert "." in ["."]; }
  }

  lemma NoLabels(ns: string)
    requires IsDnsLabel(ns)
    ensures ns != "*" && ns != "."
  {
    assert ns[0] in ns && "*"[0] == '*' && "."[0] == '.';
  }
}
