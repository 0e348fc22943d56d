/**
 Finding addresses in a platform report: a depth-bounded walk over a possibly cyclic object graph
 that records candidate addresses, and a ranking of what it has recorded.
 */
module AddressExtraction {
  import opened Wrappers
  import Text

  const MAX_DEPTH: nat := 12

  /**
   A value of the report.  Temp is a container built during the walk itself; its identity is the memory
   address it happens to get, which may be that of an earlier temporary.
   */
  datatype Value = Null | Str(s: string) | Scalar | Ref(id: nat) | Temp(id: nat, node: Node)

  /** What calling the first of an object's dump methods gives. */
  datatype Dump = NoDump | DumpRaises | Dumped(v: Value)

  /**
   attributes: the address attributes an object has, in the order they are asked for; fields: its variables,
   with the identity of the dictionary they are put in.
   */
  datatype Node =
    | Dict(entries: seq<(string, Value)>)
    | Items(values: seq<Value>)
    | Object(attributes: seq<(string, Value)>, dump: Dump, fields: Option<(nat, seq<(string, Value)>)>)

  type Heap = map<nat, Node>

  /** A dotted quad in a text, as the address library sees it. */
  datatype Candidate = NotAnIp | Address(text: string, loopback: bool, linkLocal: bool, multicast: bool, unspecified: bool)

  type Finder = string -> seq<Candidate>

  predicate Usable(c: Candidate) {
    c.Address? && !c.loopback && !c.linkLocal && !c.multicast && !c.unspecified
  }

  // --- Priorities --------------------------------------------------------------------------------

  function Normal(s: string): string {
    if s == "" then ""
    else
      var c := Text.LowerChar(s[0]);
      (if 'a' <= c <= 'z' || Text.IsDigit(c) then [c] else "") + Normal(s[1..])
  }

  predicate Contains(s: string, part: string) {
    |part| <= |s| && (s[..|part|] == part || (s != "" && Contains(s[1..], part)))
  }

  predicate StatusPath(path: seq<string>) {
    exists k :: 0 <= k < |path| - 1 && (Contains(Normal(path[k]), "status") || Contains(Normal(path[k]), "network"))
  }

  /** How much an address found under this path is trusted; none means it is not recorded. */
  function Priority(path: seq<string>): Option<nat> {
    var key := if path == [] then "" else Normal(path[|path| - 1]);
    if key in {"podip", "containerip", "privateip", "ipaddress"} then Some(100)
    else if key == "ip" then Some(90)
    else if key in {"hostip", "nodeip"} then Some(80)
    else if StatusPath(path) && key in {"address", "endpoint", "host"} then Some(50)
    else None
  }

  datatype Match = Match(priority: nat, sequence: nat, address: string)

  /** The candidates of one text, recorded under one path, numbered from a start. */
  function Record(cs: seq<Candidate>, path: seq<string>, start: nat): seq<Match> {
    if cs == [] then []
    else if Usable(cs[0]) && Priority(path).Some? then
      [Match(Priority(path).value, start, cs[0].text)] + Record(cs[1..], path, start + 1)
    else Record(cs[1..], path, start)
  }

  // --- The walk ----------------------------------------------------------------------------------

  datatype State = State(matches: seq<Match>, visited: set<nat>)

  /** Where the walk goes from a value: children with their paths, in order. */
  function Children(heap: Heap, v: Value, path: seq<string>): seq<(Value, seq<string>)> {
    match v
    case Ref(id) => if id in heap then Inside(heap[id], path) else []
    case Temp(_, node) => Inside(node, path)
    case _ => []
  }

  function Inside(node: Node, path: seq<string>): seq<(Value, seq<string>)> {
    match node
    case Dict(entries) => Named(entries, path)
    case Items(values) => Numbered(values, path, 0)
    case Object(attributes, dump, fields) =>
      Named(attributes, path)
      + (match dump
         case Dumped(d) => [(d, path)]
         case DumpRaises => []
         case NoDump => if fields.None? then [] else [(Temp(fields.value.0, Dict(Public(fields.value.1))), path)])
  }

  function Named(entries: seq<(string, Value)>, path: seq<string>): seq<(Value, seq<string>)> {
    seq(|entries|, i requires 0 <= i < |entries| => (entries[i].1, path + [entries[i].0]))
  }

  function Numbered(values: seq<Value>, path: seq<string>, start: nat): seq<(Value, seq<string>)> {
    seq(|values|, i requires 0 <= i < |values| => (values[i], path + [Text.NatText(start + i)]))
  }

  function Public(fields: seq<(string, Value)>): seq<(string, Value)> {
    if fields == [] then []
    else (if fields[0].0 != "" && fields[0].0[0] == '_' then [] else [fields[0]]) + Public(fields[1..])
  }

  function Walk(heap: Heap, find: Finder, s: State, v: Value, path: seq<string>, depth: nat): State
    decreases MAX_DEPTH + 1 - depth, 0
  {
    if v.Null? || v.Scalar? || depth > MAX_DEPTH then s
    else if v.Str? then s.(matches := s.matches + Record(find(v.s), path, |s.matches|))
    else if v.id in s.visited then s
    else WalkAll(heap, find, s.(visited := s.visited + {v.id}), Children(heap, v, path), depth + 1)
  }

  function WalkAll(heap: Heap, find: Finder, s: State, vs: seq<(Value, seq<string>)>, depth: nat): State
    decreases MAX_DEPTH + 1 - depth, |vs| + 1
  {
    if vs == [] then s
    else WalkAll(heap, find, Walk(heap, find, s, vs[0].0, vs[0].1, depth), vs[1..], depth)
  }

  class Extraction {
    const heap: Heap
    const find: Finder
    var matches: seq<Match>
    var visited: set<nat>
    var sequence: nat

    ghost predicate Valid()
      reads this
    {
      sequence == |matches|
    }

    ghost function Current(): State
      reads this
    {
      State(matches, visited)
    }

    constructor (heap: Heap, find: Finder)
      ensures Valid() && Current() == State([], {}) && this.heap == heap && this.find == find
    {
      this.heap := heap;
      this.find := find;
      matches := [];
      visited := {};
      sequence := 0;
    }

    method Add(text: string, path: seq<string>)
      requires Valid()
      modifies this`matches, this`sequence
      ensures Valid() && matches == old(matches) + Record(find(text), path, |old(matches)|)
    {
      var candidates := find(text);
      for n := 0 to |candidates|
        invariant Valid() && |old(matches)| <= |matches|
        invariant matches + Record(candidates[n..], path, |matches|) == old(matches) + Record(candidates, path, |old(matches)|)
      {
        var c := candidates[n];
        assert candidates[n..][0] == c && candidates[n..][1..] == candidates[n + 1..];
        if Usable(c) {
          var priority := Priority(path);
          if priority.Some? {
            ghost var later := Record(candidates[n + 1..], path, |matches| + 1);
            assert matches + ([Match(priority.value, sequence, c.text)] + later)
                   == (matches + [Match(priority.value, sequence, c.text)]) + later;
            matches := matches + [Match(priority.value, sequence, c.text)];
            sequence := sequence + 1;
          }
        }
      }
      assert candidates[|candidates|..] == [];
    }

    method Visit(v: Value, path: seq<string>, depth: nat)
      requires Valid()
      modifies this
      ensures Valid() && Current() == Walk(heap, find, old(Current()), v, path, depth)
      decreases MAX_DEPTH + 1 - depth
    {
      if v.Null? || depth > MAX_DEPTH {
        return;
      }
      if v.Str? {
        Add(v.s, path);
        return;
      }
      if v.Scalar? {
        return;
      }
      if v.id in visited {
        return;
      }
      visited := visited + {v.id};
      var children := Children(heap, v, path);
      ghost var marked := Current();
      for n := 0 to |children|
        invariant Valid()
        invariant WalkAll(heap, find, Current(), children[n..], depth + 1) == WalkAll(heap, find, marked, children, depth + 1)
      {
        assert children[n..][0] == children[n] && children[n..][1..] == children[n + 1..];
        Visit(children[n].0, children[n].1, depth + 1);
      }
      assert children[|children|..] == [];
    }
  }
}
