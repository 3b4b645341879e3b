/**
 * The starter specification written by `init`: a project identity derived
 * from the name, a three-node domain (system, module, entity) whose
 * references all resolve, and a history ledger with one initial entry.
 */
module Template {
  import opened Wrappers

  const InitialVersion := "1.0.0"

  /** `toLowerCase` on one character, for the ASCII range. */
  function LowerAscii(c: char): char
  {
    if 'A' <= c <= 'Z' then (c as int + ('a' as int - 'A' as int)) as char else c
  }

  /** The characters `[a-z0-9]` kept by the id expression. */
  predicate IdChar(c: char)
  {
    'a' <= c <= 'z' || '0' <= c <= '9'
  }

  /** `s.toLowerCase()`. */
  function ToLower(s: string): (r: string)
    ensures |r| == |s|
    decreases |s|
  {
    if |s| == 0 then "" else [LowerAscii(s[0])] + ToLower(s[1..])
  }

  /** `s.replace(/[^a-z0-9]/g, '.')`. */
  function DotNonIdChars(s: string): (r: string)
    ensures |r| == |s|
    ensures forall k :: 0 <= k < |r| ==> IdChar(r[k]) || r[k] == '.'
    decreases |s|
  {
    if |s| == 0 then ""
    else [if IdChar(s[0]) then s[0] else '.'] + DotNonIdChars(s[1..])
  }

  /** The project id of the template: lower-cased, every other character a dot. */
  function ProjectId(name: string): (id: string)
    ensures |id| == |name|
    ensures forall k :: 0 <= k < |id| ==> IdChar(id[k]) || id[k] == '.'
  {
    DotNonIdChars(ToLower(name))
  }

  lemma {:induction false} ToLowerAt(s: string, k: nat)
    requires k < |s|
    ensures ToLower(s)[k] == LowerAscii(s[k])
    decreases |s|
  {
    if k > 0 {
      ToLowerAt(s[1..], k - 1);
    }
  }

  lemma {:induction false} DotNonIdCharsAt(s: string, k: nat)
    requires k < |s|
    ensures DotNonIdChars(s)[k] == if IdChar(s[k]) then s[k] else '.'
    decreases |s|
  {
    if k > 0 {
      DotNonIdCharsAt(s[1..], k - 1);
    }
  }

  /** Character by character: letters and digits survive (capitals lowered), anything else becomes a dot. */
  lemma ProjectIdAt(name: string, k: nat)
    requires k < |name|
    ensures ProjectId(name)[k] == if IdChar(LowerAscii(name[k])) then LowerAscii(name[k]) else '.'
  {
    ToLowerAt(name, k);
    DotNonIdCharsAt(ToLower(name), k);
  }

  /** An id is a fixed point of the id expression. */
  lemma ProjectIdIdempotent(name: string)
    ensures ProjectId(ProjectId(name)) == ProjectId(name)
  {
    var id := ProjectId(name);
    forall k | 0 <= k < |id| ensures ProjectId(id)[k] == id[k] {
      ProjectIdAt(id, k);
    }
  }

  /** An entry of the history ledger. */
  datatype VersionEntry = VersionEntry(
    version: string,
    basedOn: Option<string>,
    changes: seq<string>,
    migrations: seq<string>,
    notes: string)

  datatype NodeKind = System | Module | Entity

  /** A node of the domain graph: its kind, id, title and the ids of its children. */
  datatype Node = Node(kind: NodeKind, id: string, title: string, children: seq<string>)

  /** The parts of a specification document the template fills in. */
  datatype Spec = Spec(
    dialect: string,
    projectId: string,
    projectName: string,
    strategy: string,
    current: string,
    root: string,
    nodes: seq<Node>,
    history: seq<VersionEntry>)

  predicate Declared(s: Spec, id: string)
  {
    exists n :: n in s.nodes && n.id == id
  }

  /** Every node reference (the root and each child) names a declared node. */
  predicate ReferencesResolve(s: Spec)
  {
    && Declared(s, s.root)
    && forall n, c :: n in s.nodes && c in n.children ==> Declared(s, c)
  }

  /** The ledger starts with an entry based on nothing, chains each entry to the one before, and ends at the current version. */
  predicate LedgerConsistent(s: Spec)
  {
    && |s.history| >= 1
    && s.history[0].basedOn == None
    && (forall k :: 1 <= k < |s.history| ==> s.history[k].basedOn == Some(s.history[k - 1].version))
    && s.history[|s.history| - 1].version == s.current
  }

  /** generateTemplate. */
  function GenerateTemplate(name: string): (s: Spec)
    ensures s.projectId == ProjectId(name) && s.projectName == name
    ensures s.current == InitialVersion && |s.history| == 1
    ensures LedgerConsistent(s)
    ensures ReferencesResolve(s)
  {
    var root := Node(System, "system.root", name, ["mod.core"]);
    var core := Node(Module, "mod.core", "Core", ["entity.example"]);
    var example := Node(Entity, "entity.example", "Example Entity", []);
    var s := Spec(
      "evospec/v1", ProjectId(name), name, "semver", InitialVersion, "system.root",
      [root, core, example],
      [VersionEntry(InitialVersion, None, [], [], "Initial version")]);
    assert root in s.nodes && core in s.nodes && example in s.nodes;
    s
  }
}
