/** dav_propfind: the stat that is read from the prop of a response. */
module FileStat {
  import opened Options
  import opened CStrings
  import opened Propfind
  import Numerals

  const DAV := "DAV:"
  const NETWORKFS := "NETWORKFS:"

  datatype Stat = Stat(uid: nat, gid: nat, mode: nat, nlink: nat, size: int, rdev: int, ctime: int, mtime: int, atime: int)

  /** From the options: the owner, and the modes of files and of directories with their masks taken off. */
  datatype Defaults = Defaults(uid: nat, gid: nat, fileMode: nat, dirMode: nat)

  /** What xmlParserTimeNode makes of a node: dates are not part of this model. */
  type Clock = Node -> int

  const LONG_MAX := 0x7fff_ffff_ffff_ffff

  function Clamp(n: int): int {
    if n > LONG_MAX then LONG_MAX else if n < -LONG_MAX - 1 then -LONG_MAX - 1 else n
  }

  /** strtol: white space, a sign, digits; without digits 0 and nothing read; clamped to a long. */
  function Strtol(s: string, base: nat): (int, string)
    requires base <= 10
  {
    var t := LStrip(s);
    var negative := t != [] && t[0] == '-';
    var digits := if t != [] && (t[0] == '-' || t[0] == '+') then t[1..] else t;
    var (value, rest) := Numerals.Scan(0, digits, base);
    if |rest| == |digits| then (0, s)
    else (Clamp(if negative then -(value as int) else value), rest)
  }

  /** A long stored in a 32-bit field. */
  function ToUint32(n: int): nat {
    n % 0x1_0000_0000
  }

  /** S_ISCHR or S_ISBLK. */
  predicate IsDevice(mode: nat) {
    mode / 0x1000 % 16 == 2 || mode / 0x1000 % 16 == 6
  }

  /** The content of the first child; None when there is no child, or its content is null, which the code does not test. */
  function ContentOf(node: Node): Option<string> {
    if node.children == [] then None else node.children[0].content
  }

  /** The first loop, one entry of the namespace DAV:. */
  function DavEntry(st: Stat, e: Node, d: Defaults, clock: Clock): Option<Stat> {
    if e.name == "getcontentlength" then
      if ContentOf(e).None? then None else Some(st.(size := Strtol(ContentOf(e).value, 10).0))
    else if e.name == "resourcetype" then
      Some(if e.children != [] && e.children[0].name == "collection" then st.(mode := d.dirMode, nlink := 2) else st)
    else if e.name == "creationdate" then Some(st.(ctime := clock(e)))
    else if e.name == "getlastmodified" then Some(st.(mtime := clock(e)))
    else Some(st)
  }

  function SetMode(st: Stat, text: string): Stat {
    var (v, rest) := Strtol(text, 8);
    var st' := st.(mode := ToUint32(v));
    if IsDevice(st'.mode) then st'.(rdev := Strtol(rest, 10).0) else st'
  }

  function SetOwner(st: Stat, text: string): Stat {
    var (v, rest) := Strtol(text, 10);
    st.(uid := ToUint32(v), gid := ToUint32(Strtol(rest, 10).0))
  }

  function SetTimes(st: Stat, text: string): Stat {
    var (c, rest) := Strtol(text, 10);
    var (m, end) := Strtol(rest, 10);
    st.(ctime := c, mtime := m, atime := Strtol(end, 10).0)
  }

  /** The second loop, one entry of this program's own namespace. */
  function OwnEntry(st: Stat, e: Node): Option<Stat> {
    if e.name != "mode" && e.name != "size" && e.name != "owner" && e.name != "time" then Some(st)
    else if ContentOf(e).None? then None
    else
      var text := ContentOf(e).value;
      Some(if e.name == "mode" then SetMode(st, text)
           else if e.name == "size" then st.(size := Strtol(text, 10).0)
           else if e.name == "owner" then SetOwner(st, text)
           else SetTimes(st, text))
  }

  function Entry(st: Stat, e: Node, ns: string, d: Defaults, clock: Clock): Option<Stat> {
    if ns == DAV then DavEntry(st, e, d, clock) else OwnEntry(st, e)
  }

  /** One of the two loops over all entries, each looking at its own namespace only. */
  function Loop(st: Stat, entries: seq<Node>, ns: string, d: Defaults, clock: Clock): Option<Stat>
    decreases |entries|
  {
    if entries == [] then Some(st)
    else if entries[0].ns.None? then None
    else if entries[0].ns.value != ns then Loop(st, entries[1..], ns, d, clock)
    else
      var st' := Entry(st, entries[0], ns, d, clock);
      if st'.None? then None else Loop(st'.value, entries[1..], ns, d, clock)
  }

  /** The stat of a response; None when the code uses a null pointer. */
  function StatOf(entries: seq<Node>, d: Defaults, clock: Clock): Option<Stat> {
    var first := Loop(Stat(d.uid, d.gid, d.fileMode, 1, 0, 0, 0, 0, 0), entries, DAV, d, clock);
    if first.None? then None else Loop(first.value, entries, NETWORKFS, d, clock)
  }

  method ReadLoop(start: Stat, entries: seq<Node>, ns: string, d: Defaults, clock: Clock) returns (st: Option<Stat>)
    ensures st == Loop(start, entries, ns, d, clock)
  {
    st := Some(start);
    var i := 0;
    while i < |entries|
      invariant 0 <= i <= |entries| && st.Some?
      invariant Loop(st.value, entries[i..], ns, d, clock) == Loop(start, entries, ns, d, clock)
    {
      assert entries[i..][0] == entries[i] && entries[i..][1..] == entries[i + 1..];
      if entries[i].ns.None? {
        return None;
      }
      if entries[i].ns.value == ns {
        st := Entry(st.value, entries[i], ns, d, clock);
        if st.None? {
          return;
        }
      }
      i := i + 1;
    }
    assert entries[i..] == [];
  }

  /** The two loops of dav_propfind over the entries of the prop that was selected. */
  method ReadStat(entries: seq<Node>, d: Defaults, clock: Clock) returns (st: Option<Stat>)
    ensures st == StatOf(entries, d, clock)
  {
    st := ReadLoop(Stat(d.uid, d.gid, d.fileMode, 1, 0, 0, 0, 0, 0), entries, DAV, d, clock);
    if st.Some? {
      st := ReadLoop(st.value, entries, NETWORKFS, d, clock);
    }
  }

  // ---------------------------------------------------------------- order does not matter between the namespaces

  function Only(entries: seq<Node>, ns: string): seq<Node> {
    if entries == [] then []
    else if entries[0].ns == Some(ns) then [entries[0]] + Only(entries[1..], ns)
    else Only(entries[1..], ns)
  }

  predicate AllNamed(entries: seq<Node>) {
    forall i :: 0 <= i < |entries| ==> entries[i].ns.Some?
  }

  lemma {:induction false} LoopSeesOnly(st: Stat, entries: seq<Node>, ns: string, d: Defaults, clock: Clock)
    requires AllNamed(entries)
    ensures Loop(st, entries, ns, d, clock) == Loop(st, Only(entries, ns), ns, d, clock)
    decreases |entries|
  {
    if entries != [] {
      var only, rest := Only(entries, ns), Only(entries[1..], ns);
      hide Entry;
      if entries[0].ns.value != ns {
        LoopSeesOnly(st, entries[1..], ns, d, clock);
      } else {
        assert only[0] == entries[0] && only[1..] == rest;
        var st' := Entry(st, entries[0], ns, d, clock);
        if st'.Some? {
          LoopSeesOnly(st'.value, entries[1..], ns, d, clock);
        }
      }
    }
  }

  /** An entry at which a loop for this namespace uses a null pointer. */
  predicate Breaks(e: Node, ns: string) {
    || e.ns.None?
    || (e.ns.value == ns && (e.children == [] || e.children[0].content == None) &&
        if ns == DAV then e.name == "getcontentlength"
        else e.name == "mode" || e.name == "size" || e.name == "owner" || e.name == "time")
  }

  lemma EntryExactly(st: Stat, e: Node, ns: string, d: Defaults, clock: Clock)
    requires e.ns == Some(ns)
    ensures Entry(st, e, ns, d, clock) == None <==> Breaks(e, ns)
  {
    hide SetMode, SetOwner, SetTimes, Strtol;
  }

  lemma {:induction false} LoopExactly(st: Stat, entries: seq<Node>, ns: string, d: Defaults, clock: Clock)
    ensures Loop(st, entries, ns, d, clock) == None <==> exists i :: 0 <= i < |entries| && Breaks(entries[i], ns)
    decreases |entries|
  {
    if entries != [] {
      var e, rest := entries[0], entries[1..];
      assert forall i :: 0 < i < |entries| ==> entries[i] == rest[i - 1];
      if e.ns == Some(ns) {
        EntryExactly(st, e, ns, d, clock);
      }
      hide Entry, DAV;
      if e.ns.Some? && e.ns.value != ns {
        LoopExactly(st, rest, ns, d, clock);
      } else if e.ns.Some? && Entry(st, e, ns, d, clock).Some? {
        LoopExactly(Entry(st, e, ns, d, clock).value, rest, ns, d, clock);
      }
    }
  }

  /**
   * The stat is read unless some entry has no namespace, or a getcontentlength of DAV: or one of this program's own
   * entries has no child, or a first child without content, such as an element.
   */
  lemma StatExactly(entries: seq<Node>, d: Defaults, clock: Clock)
    ensures StatOf(entries, d, clock) == None
            <==> exists i :: 0 <= i < |entries| && (Breaks(entries[i], DAV) || Breaks(entries[i], NETWORKFS))
  {
    var start := Stat(d.uid, d.gid, d.fileMode, 1, 0, 0, 0, 0, 0);
    LoopExactly(start, entries, DAV, d, clock);
    var first := Loop(start, entries, DAV, d, clock);
    if first.Some? {
      LoopExactly(first.value, entries, NETWORKFS, d, clock);
    }
    hide Loop, Breaks;
  }

  /** Text between the entries, a mode whose first child is an element, and a length without a child. */
  lemma NullsUsed(d: Defaults, clock: Clock)
    ensures StatOf([Text(" ")], d, clock) == None
    ensures StatOf([Node("mode", Some(NETWORKFS), None, [Element("x", [Text("644")])])], d, clock) == None
    ensures StatOf([Element("getcontentlength", [])], d, clock) == None
  {
    assert Breaks(Text(" "), DAV);
    assert Breaks(Element("getcontentlength", []), DAV);
    var mode := Node("mode", Some(NETWORKFS), None, [Element("x", [Text("644")])]);
    assert Breaks(mode, NETWORKFS);
    assert [Text(" ")][0] == Text(" ") && [mode][0] == mode;
    assert [Element("getcontentlength", [])][0] == Element("getcontentlength", []);
    StatExactly([Text(" ")], d, clock);
    StatExactly([mode], d, clock);
    StatExactly([Element("getcontentlength", [])], d, clock);
    hide *;
  }

  /** Two lists that keep the order within each namespace, and agree on whether every entry has one, give the same stat. */
  lemma InterleavingDoesNotMatter(entries: seq<Node>, entries': seq<Node>, d: Defaults, clock: Clock)
    requires AllNamed(entries) <==> AllNamed(entries')
    requires Only(entries, DAV) == Only(entries', DAV) && Only(entries, NETWORKFS) == Only(entries', NETWORKFS)
    ensures StatOf(entries, d, clock) == StatOf(entries', d, clock)
  {
    if AllNamed(entries) {
      NamedInterleaving(entries, entries', d, clock);
    } else {
      StatExactly(entries, d, clock);
      StatExactly(entries', d, clock);
      hide StatOf;
    }
  }

  lemma NamedInterleaving(entries: seq<Node>, entries': seq<Node>, d: Defaults, clock: Clock)
    requires AllNamed(entries) && AllNamed(entries')
    requires Only(entries, DAV) == Only(entries', DAV) && Only(entries, NETWORKFS) == Only(entries', NETWORKFS)
    ensures StatOf(entries, d, clock) == StatOf(entries', d, clock)
  {
    var start := Stat(d.uid, d.gid, d.fileMode, 1, 0, 0, 0, 0, 0);
    LoopSeesOnly(start, entries, DAV, d, clock);
    LoopSeesOnly(start, entries', DAV, d, clock);
    var first := Loop(start, entries, DAV, d, clock);
    if first.Some? {
      LoopSeesOnly(first.value, entries, NETWORKFS, d, clock);
      LoopSeesOnly(first.value, entries', NETWORKFS, d, clock);
    }
    hide Loop;
  }
}
