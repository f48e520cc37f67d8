/** dav_propfind: which prop of a response is used. */
module Propfind {
  import opened Options

  /**
   * An xmlNode: an element, whose content is a null pointer, or a text node, which libxml names "text" and which has no
   * namespace. The content of other nodes may be null as well.
   */
  datatype Node = Node(name: string, ns: Option<string>, content: Option<string>, children: seq<Node>)

  const OK := "HTTP/1.1 200 OK"

  /** What the scan of one response comes to; Crash is the use of a null pointer. */
  datatype Outcome = Found(prop: Node) | Unexpected | Crash

  // ---------------------------------------------------------------- the scan of one response

  /** The index of the first node with this name, or the number of nodes. */
  function First(nodes: seq<Node>, name: string): (i: nat)
    ensures i <= |nodes| && (i < |nodes| ==> nodes[i].name == name)
    ensures forall j :: 0 <= j < i ==> nodes[j].name != name
  {
    if nodes == [] || nodes[0].name == name then 0 else 1 + First(nodes[1..], name)
  }

  /** The first prop of a propstat. */
  function PropOf(propstat: Node): Option<Node> {
    var nodes := propstat.children;
    var i := First(nodes, "prop");
    if i < |nodes| then Some(nodes[i]) else None
  }

  /** The first status behind it. */
  function StatusOf(propstat: Node): Option<Node> {
    var nodes := propstat.children;
    var i := First(nodes, "prop");
    if i == |nodes| then None
    else
      var rest := nodes[i + 1..];
      var j := First(rest, "status");
      if j < |rest| then Some(rest[j]) else None
  }

  /** Null content is no match: xmlStrcmp takes null pointers. */
  predicate IsOk(propstat: Node) {
    StatusOf(propstat).Some? && var status := StatusOf(propstat).value;
    status.children != [] && status.children[0].content == Some(OK)
  }

  /** The first propstat from here on that ends the scan: one whose status is OK, or one without a status behind a prop. */
  function FromPropstats(nodes: seq<Node>): Outcome {
    if nodes == [] then Unexpected
    else if nodes[0].name != "propstat" then FromPropstats(nodes[1..])
    else if StatusOf(nodes[0]).None? then Crash
    else if IsOk(nodes[0]) then Found(PropOf(nodes[0]).value)
    else FromPropstats(nodes[1..])
  }

  function Scan(response: Node): Outcome {
    var nodes := response.children;
    var h := First(nodes, "href");
    if h == |nodes| then Unexpected else FromPropstats(nodes[h + 1..])
  }

  /** The inner loop of the scan: prop, then status, among the children of a propstat. */
  method ScanPropstat(propstat: Node) returns (prop: Option<Node>, status: Option<Node>)
    ensures prop == PropOf(propstat) && status == StatusOf(propstat)
  {
    prop, status := None, None;
    var nodes := propstat.children;
    ghost var p := First(nodes, "prop");
    var i := 0;
    while i < |nodes|
      invariant 0 <= i <= |nodes|
      invariant prop == if i <= p then None else Some(nodes[p])
      invariant prop == None ==> status == None
      invariant prop.Some? ==> status == var r := nodes[p + 1..]; var s := First(r, "status"); if p + 1 + s < i then Some(r[s]) else None
    {
      if prop == None {
        if nodes[i].name == "prop" {
          prop := Some(nodes[i]);
        }
      } else if status == None {
        if nodes[i].name == "status" {
          status := Some(nodes[i]);
        }
      } else {
        break;
      }
      i := i + 1;
    }
  }

  /** The outer loop: href, then the propstat, among the children of a response. */
  method ScanResponse(response: Node) returns (outcome: Outcome)
    ensures outcome == Scan(response)
  {
    var nodes := response.children;
    var href, propstat, prop, status: Option<Node> := None, None, None, None;
    ghost var h := First(nodes, "href");
    var i := 0;
    while i < |nodes|
      invariant 0 <= i <= |nodes|
      invariant href == if i <= h then None else Some(nodes[h])
      invariant href == None ==> propstat == None
      invariant propstat == None ==> prop == None && status == None
      invariant propstat.Some? ==> prop.Some? && status.Some? && Scan(response) == Found(prop.value)
      invariant href.Some? && propstat == None ==> Scan(response) == FromPropstats(nodes[i..])
    {
      if href == None {
        if nodes[i].name == "href" {
          href := Some(nodes[i]);
        }
      } else if propstat == None {
        assert nodes[i..][1..] == nodes[i + 1..];
        if nodes[i].name == "propstat" {
          propstat := Some(nodes[i]);
          prop, status := ScanPropstat(nodes[i]);
          if status == None {
            return Crash;
          }
          if status.value.children == [] || status.value.children[0].content != Some(OK) {
            propstat, prop, status := None, None, None;
          }
        }
      } else {
        break;
      }
      i := i + 1;
    }
    if href.Some? && propstat.Some? && prop.Some? && status.Some? {
      outcome := Found(prop.value);
    } else {
      outcome := Unexpected;
    }
  }

  /** A propstat that ends the scan. */
  predicate Stops(node: Node) {
    node.name == "propstat" && (StatusOf(node).None? || IsOk(node))
  }

  /** Position k holds the first node that ends the scan behind the first href. */
  ghost predicate FirstStop(nodes: seq<Node>, k: nat) {
    && First(nodes, "href") < k < |nodes| && Stops(nodes[k])
    && forall j :: First(nodes, "href") < j < k ==> !Stops(nodes[j])
  }

  lemma {:induction false} FromStop(nodes: seq<Node>, k: nat)
    requires k <= |nodes| && (k < |nodes| ==> Stops(nodes[k])) && forall j :: 0 <= j < k ==> !Stops(nodes[j])
    ensures FromPropstats(nodes) ==
      if k == |nodes| then Unexpected
      else if StatusOf(nodes[k]).None? then Crash
      else Found(PropOf(nodes[k]).value)
    decreases k
  {
    if k > 0 {
      assert !Stops(nodes[0]);
      FromStop(nodes[1..], k - 1);
    }
  }

  lemma {:induction false} FindStop(nodes: seq<Node>) returns (k: nat)
    ensures k <= |nodes| && (k < |nodes| ==> Stops(nodes[k])) && forall j :: 0 <= j < k ==> !Stops(nodes[j])
  {
    if nodes == [] || Stops(nodes[0]) {
      k := 0;
    } else {
      var rest := FindStop(nodes[1..]);
      k := rest + 1;
      assert forall j :: 1 <= j < k ==> nodes[j] == nodes[1..][j - 1];
    }
  }

  lemma ScanStopsAt(response: Node, k: nat)
    requires FirstStop(response.children, k)
    ensures Scan(response) == if StatusOf(response.children[k]).None? then Crash else Found(PropOf(response.children[k]).value)
  {
    var nodes := response.children;
    var h := First(nodes, "href");
    var rest := nodes[h + 1..];
    forall j | 0 <= j < k - h - 1
      ensures !Stops(rest[j])
    {
      assert rest[j] == nodes[h + 1 + j];
    }
    FromStop(nodes[h + 1..], k - h - 1);
  }

  lemma ScanNeverStops(response: Node)
    requires forall k: nat :: !FirstStop(response.children, k)
    ensures Scan(response) == Unexpected
  {
    var nodes := response.children;
    var h := First(nodes, "href");
    if h < |nodes| {
      var k := FindStop(nodes[h + 1..]);
      assert forall j :: h < j < h + 1 + k ==> nodes[j] == nodes[h + 1..][j - h - 1];
      assert !FirstStop(nodes, h + 1 + k);
      FromStop(nodes[h + 1..], k);
    }
  }

  /**
   * The scan gives the prop of the first propstat behind the first href whose status is OK, and rejects the response
   * when there is none; it uses a null pointer exactly when a propstat without a status behind a prop comes before that.
   */
  lemma ScanExactly(response: Node)
    ensures forall p :: Scan(response) == Found(p) <==>
      exists k: nat :: FirstStop(response.children, k) && IsOk(response.children[k]) && PropOf(response.children[k]) == Some(p)
    ensures Scan(response) == Crash <==>
      exists k: nat :: FirstStop(response.children, k) && StatusOf(response.children[k]).None?
    ensures Scan(response) == Unexpected <==> forall k: nat :: !FirstStop(response.children, k)
  {
    if k: nat :| FirstStop(response.children, k) {
      ScanStopsAt(response, k);
      forall i: nat | FirstStop(response.children, i)
        ensures i == k
      {
        OneStop(response.children, i, k);
      }
      hide Scan, FirstStop, First;
    } else {
      ScanNeverStops(response);
      hide Scan, FirstStop;
    }
  }

  lemma OneStop(nodes: seq<Node>, i: nat, k: nat)
    requires FirstStop(nodes, i) && FirstStop(nodes, k)
    ensures i == k
  {
  }

  function Element(name: string, children: seq<Node>): Node {
    Node(name, Some("DAV:"), None, children)
  }

  function Text(content: string): Node {
    Node("text", None, Some(content), [])
  }

  /** A response whose propstat has a prop and no status, and one with the status in front of the prop. */
  lemma NoStatusCrashes()
    ensures Scan(Element("response", [Element("href", []), Element("propstat", [Element("prop", [])])])) == Crash
    ensures Scan(Element("response", [Element("href", []),
                                      Element("propstat", [Element("status", []), Element("prop", [])])])) == Crash
  {
    var one := Element("propstat", [Element("prop", [])]);
    var two := Element("propstat", [Element("status", []), Element("prop", [])]);
    assert StatusOf(one) == None && StatusOf(two) == None;
    var nodes := [Element("href", []), one];
    assert First(nodes, "href") == 0 && nodes[1..] == [one];
    var nodes2 := [Element("href", []), two];
    assert First(nodes2, "href") == 0 && nodes2[1..] == [two];
  }

  // ---------------------------------------------------------------- the same by position and literal text

  /** Position i is the first with this name, of those from here on. */
  predicate FirstNamed(nodes: seq<Node>, from: nat, i: nat, name: string) {
    && from <= i < |nodes| && nodes[i].name == name
    && forall j :: from <= j < i ==> nodes[j].name != name
  }

  /** The first prop of a propstat is at position i, and the first status behind it at position j. */
  predicate PropStatusAt(propstat: Node, i: nat, j: nat) {
    FirstNamed(propstat.children, 0, i, "prop") && FirstNamed(propstat.children, i + 1, j, "status")
  }

  ghost predicate Complete(propstat: Node) {
    exists i: nat, j: nat :: PropStatusAt(propstat, i, j)
  }

  /** A propstat that is complete, with the prop at position i and this text in the status. */
  predicate HasStatus(propstat: Node, i: nat, j: nat, text: string) {
    && PropStatusAt(propstat, i, j)
    && propstat.children[j].children != [] && propstat.children[j].children[0].content == Some(text)
  }

  ghost predicate Approved(propstat: Node) {
    exists i: nat, j: nat :: HasStatus(propstat, i, j, "HTTP/1.1 200 OK")
  }

  lemma FirstIs(nodes: seq<Node>, i: nat, name: string)
    ensures FirstNamed(nodes, 0, i, name) <==> i < |nodes| && First(nodes, name) == i
  {
  }

  lemma FirstIsBehind(nodes: seq<Node>, from: nat, j: nat, name: string)
    requires from <= j && from <= |nodes|
    ensures FirstNamed(nodes, from, j, name) <==> j < |nodes| && First(nodes[from..], name) == j - from
  {
    var rest := nodes[from..];
    assert forall k :: from <= k < |nodes| ==> nodes[k] == rest[k - from];
    if FirstNamed(nodes, from, j, name) {
      assert forall k :: 0 <= k < j - from ==> rest[k] == nodes[from + k];
    }
  }

  lemma PropStatusIs(propstat: Node, i: nat, j: nat)
    requires PropStatusAt(propstat, i, j)
    ensures PropOf(propstat) == Some(propstat.children[i]) && StatusOf(propstat) == Some(propstat.children[j])
  {
    hide First;
    FirstIs(propstat.children, i, "prop");
    FirstIsBehind(propstat.children, i + 1, j, "status");
  }

  lemma CompleteIs(propstat: Node)
    ensures StatusOf(propstat).Some? <==> Complete(propstat)
  {
    hide First;
    var nodes := propstat.children;
    if StatusOf(propstat).Some? {
      var i := First(nodes, "prop");
      var j := i + 1 + First(nodes[i + 1..], "status");
      FirstIs(nodes, i, "prop");
      FirstIsBehind(nodes, i + 1, j, "status");
      assert PropStatusAt(propstat, i, j);
    } else if i: nat, j: nat :| PropStatusAt(propstat, i, j) {
      PropStatusIs(propstat, i, j);
    }
  }

  lemma ApprovedIs(propstat: Node)
    ensures IsOk(propstat) <==> Approved(propstat)
  {
    CompleteIs(propstat);
    hide PropOf, StatusOf, PropStatusAt;
    if i: nat, j: nat :| PropStatusAt(propstat, i, j) {
      PropStatusIs(propstat, i, j);
      if Approved(propstat) {
        var i', j' :| HasStatus(propstat, i', j', "HTTP/1.1 200 OK");
        PropStatusIs(propstat, i', j');
      } else {
        assert !HasStatus(propstat, i, j, "HTTP/1.1 200 OK");
      }
    }
  }

  /** Position k is behind the first href, and no propstat between them is incomplete or approved. */
  ghost predicate Reached(nodes: seq<Node>, k: nat) {
    exists h: nat :: FirstNamed(nodes, 0, h, "href") && h < k &&
      forall j :: h < j < k && j < |nodes| && nodes[j].name == "propstat" ==> Complete(nodes[j]) && !Approved(nodes[j])
  }

  lemma StopsIs(node: Node)
    ensures Stops(node) <==> node.name == "propstat" && (!Complete(node) || Approved(node))
  {
    CompleteIs(node);
    ApprovedIs(node);
  }

  lemma StopIs(nodes: seq<Node>, k: nat)
    ensures FirstStop(nodes, k) <==>
            Reached(nodes, k) && k < |nodes| && nodes[k].name == "propstat" && (!Complete(nodes[k]) || Approved(nodes[k]))
  {
    var h := First(nodes, "href");
    FirstIs(nodes, h, "href");
    forall j | 0 <= j < |nodes|
      ensures Stops(nodes[j]) <==> nodes[j].name == "propstat" && (!Complete(nodes[j]) || Approved(nodes[j]))
    {
      StopsIs(nodes[j]);
    }
    hide First, Stops, Complete, Approved;
    if h': nat :| FirstNamed(nodes, 0, h', "href") {
      FirstIs(nodes, h', "href");
    }
  }

  /** The prop that is used is the first one of the first propstat behind the first href that is approved. */
  lemma FoundExactly(response: Node, p: Node)
    ensures Scan(response) == Found(p) <==>
      exists k: nat, i: nat, j: nat ::
        && Reached(response.children, k) && k < |response.children| && response.children[k].name == "propstat"
        && HasStatus(response.children[k], i, j, "HTTP/1.1 200 OK") && response.children[k].children[i] == p
  {
    var nodes := response.children;
    ScanExactly(response);
    hide Scan, Stops, First, Reached, PropOf, StatusOf, IsOk;
    if Scan(response) == Found(p) {
      var k: nat :| FirstStop(nodes, k) && IsOk(nodes[k]) && PropOf(nodes[k]) == Some(p);
      StopIs(nodes, k);
      ApprovedIs(nodes[k]);
      var i: nat, j: nat :| HasStatus(nodes[k], i, j, "HTTP/1.1 200 OK");
      PropStatusIs(nodes[k], i, j);
    }
    if k: nat, i: nat, j: nat :|
      && Reached(nodes, k) && k < |nodes| && nodes[k].name == "propstat"
      && HasStatus(nodes[k], i, j, "HTTP/1.1 200 OK") && nodes[k].children[i] == p
    {
      StopIs(nodes, k);
      ApprovedIs(nodes[k]);
      PropStatusIs(nodes[k], i, j);
    }
  }

  /** A null pointer is used when a propstat without a status behind a prop comes before an approved one. */
  lemma CrashExactly(response: Node)
    ensures Scan(response) == Crash <==>
      exists k: nat :: Reached(response.children, k) && k < |response.children|
                       && response.children[k].name == "propstat" && !Complete(response.children[k])
  {
    var nodes := response.children;
    ScanExactly(response);
    hide Scan, Stops, First, Reached, StatusOf, Complete;
    if Scan(response) == Crash {
      var k: nat :| FirstStop(nodes, k) && StatusOf(nodes[k]).None?;
      StopIs(nodes, k);
      CompleteIs(nodes[k]);
    }
    if k: nat :| Reached(nodes, k) && k < |nodes| && nodes[k].name == "propstat" && !Complete(nodes[k]) {
      StopIs(nodes, k);
      CompleteIs(nodes[k]);
    }
  }

  /** One propstat behind an href: its prop is used when it comes with this status, and no other text will do. */
  lemma StatusDecides(href: Node, entries: seq<Node>, text: string)
    requires href.name == "href"
    ensures var prop := Element("prop", entries);
            var propstat := Element("propstat", [prop, Element("status", [Text(text)])]);
            Scan(Element("response", [href, propstat])) == if text == "HTTP/1.1 200 OK" then Found(prop) else Unexpected
  {
    var prop := Element("prop", entries);
    var propstat := Element("propstat", [prop, Element("status", [Text(text)])]);
    var nodes := [href, propstat];
    assert PropStatusAt(propstat, 0, 1);
    PropStatusIs(propstat, 0, 1);
    assert First(nodes, "href") == 0 && nodes[1..] == [propstat] && [propstat][1..] == [];
    assert FromPropstats([propstat]) == if text == "HTTP/1.1 200 OK" then Found(prop) else Unexpected by {
      hide PropOf, StatusOf, First;
    }
  }
}
