/** Well-nested XML as a tree and as the token stream the decoder delivers, and the streaming search of the
    payload element in it. */
module XmlTokens {
  import opened Prelude

  datatype Node = Element(name: string, kids: seq<Node>) | Text

  /** What d.Token returns; everything that is neither a start-tag nor an end-tag reads as CharData. */
  datatype Token = Start(name: string) | End(name: string) | CharData

  /** The tokens of a list of sibling nodes, followed by `rest`. */
  function Stream(nodes: seq<Node>, rest: seq<Token>): seq<Token>
    decreases nodes
  {
    if nodes == [] then rest else
      var tail := Stream(nodes[1..], rest);
      match nodes[0]
      case Text => [CharData] + tail
      case Element(name, kids) => [Start(name)] + Stream(kids, [End(name)] + tail)
  }

  /** The number of tokens of a node and of a list of nodes. */
  function NodeSize(n: Node): nat {
    match n
    case Text => 1
    case Element(_, kids) => 2 + Size(kids)
  }

  function Size(nodes: seq<Node>): nat {
    if nodes == [] then 0 else NodeSize(nodes[0]) + Size(nodes[1..])
  }

  lemma DropCons(t: Token, s: seq<Token>, k: nat)
    requires k <= |s|
    ensures ([t] + s)[1 + k..] == s[k..]
  {
  }

  lemma DropDrop(s: seq<Token>, a: nat, b: nat)
    requires a + b <= |s|
    ensures s[a..][b..] == s[a + b..]
  {
  }

  /** A list of nodes occupies Size tokens, and `rest` follows them. */
  lemma {:induction false} StreamEnds(nodes: seq<Node>, rest: seq<Token>)
    ensures |Stream(nodes, rest)| == Size(nodes) + |rest| && Stream(nodes, rest)[Size(nodes)..] == rest
    decreases nodes
  {
    if nodes != [] {
      var tail, n := Stream(nodes[1..], rest), Size(nodes[1..]);
      StreamEnds(nodes[1..], rest);
      match nodes[0] {
        case Text =>
          DropCons(CharData, tail, n);
        case Element(name, kids) =>
          var inner := Stream(kids, [End(name)] + tail);
          StreamEnds(kids, [End(name)] + tail);
          DropCons(End(name), tail, n);
          DropDrop(inner, Size(kids), 1 + n);
          DropCons(Start(name), inner, Size(kids) + 1 + n);
      }
    }
  }

  // ---------------------------------------------------------------- the token loop

  /** decodeSuccessData as a function of the tokens still to come: where it hands an element to DecodeElement. */
  function Scan(toks: seq<Token>, depth: int, success: Option<int>): Option<nat>
    decreases |toks|
  {
    if toks == [] then None else
      match toks[0]
      case Start(name) =>
        if name == "Success" && success.None? then LaterBy(1, Scan(toks[1..], depth + 1, Some(depth + 1)))
        else if name == "Data" && success.Some? && depth + 1 == success.value + 1 then Some(0)
        else LaterBy(1, Scan(toks[1..], depth + 1, success))
      case End(_) =>
        LaterBy(1, Scan(toks[1..], depth - 1, if success.Some? && depth == success.value then None else success))
      case CharData => LaterBy(1, Scan(toks[1..], depth, success))
  }

  function LaterBy(n: nat, r: Option<nat>): Option<nat> {
    if r.Some? then Some(n + r.value) else None
  }

  /** Open elements after a prefix of the stream. */
  function Depth(toks: seq<Token>): int {
    if toks == [] then 0 else
      var last := toks[|toks| - 1];
      Depth(toks[..|toks| - 1]) + (if last.Start? then 1 else if last.End? then -1 else 0)
  }

  lemma DepthNext(toks: seq<Token>, i: nat)
    requires i < |toks|
    ensures Depth(toks[..i + 1]) == Depth(toks[..i]) + (if toks[i].Start? then 1 else if toks[i].End? then -1 else 0)
  {
    assert toks[..i + 1][..i] == toks[..i];
  }

  /** What the next token does to the scan. */
  lemma ScanNext(toks: seq<Token>, i: nat, depth: int, success: Option<int>)
    requires i < |toks|
    ensures LaterBy(i, Scan(toks[i..], depth, success)) ==
              match toks[i]
              case Start(name) =>
                if name == "Success" && success.None? then
                  LaterBy(i + 1, Scan(toks[i + 1..], depth + 1, Some(depth + 1)))
                else if name == "Data" && success.Some? && depth == success.value then Some(i)
                else LaterBy(i + 1, Scan(toks[i + 1..], depth + 1, success))
              case End(_) =>
                var open := if success.Some? && depth == success.value then None else success;
                LaterBy(i + 1, Scan(toks[i + 1..], depth - 1, open))
              case CharData => LaterBy(i + 1, Scan(toks[i + 1..], depth, success))
  {
    assert toks[i..][0] == toks[i] && toks[i..][1..] == toks[i + 1..];
  }

  /** The loop of decodeSuccessData: the position of the element it decodes, or None where d.Token reports the
      end of the input. */
  method DecodeSuccessData(toks: seq<Token>) returns (at: Option<nat>)
    ensures at == Scan(toks, 0, None)
    ensures at.Some? ==> at.value < |toks| && toks[at.value] == Start("Data")
  {
    var successDepth: Option<int> := None;
    var depth := 0;
    for i := 0 to |toks|
      invariant depth == Depth(toks[..i])
      invariant Scan(toks, 0, None) == LaterBy(i, Scan(toks[i..], depth, successDepth))
    {
      DepthNext(toks, i);
      ScanNext(toks, i, depth, successDepth);
      match toks[i] {
        case Start(name) =>
          depth := depth + 1;
          if name == "Success" && successDepth.None? {
            successDepth := Some(depth);
          } else if name == "Data" && successDepth.Some? && depth == successDepth.value + 1 {
            return Some(i);
          }
        case End(_) =>
          if successDepth.Some? && depth == successDepth.value {
            successDepth := None;
          }
          depth := depth - 1;
        case CharData =>
      }
    }
    at := None;
  }

  // ---------------------------------------------------------------- places in a tree

  /** A place in a list of nodes: the first node, a place among its children, or a place in the later nodes. */
  datatype Path = Hit | Down(below: Path) | Next(later: Path)

  predicate IsPath(nodes: seq<Node>, p: Path)
    decreases p
  {
    nodes != [] &&
    match p
    case Hit => true
    case Down(q) => nodes[0].Element? && IsPath(nodes[0].kids, q)
    case Next(q) => IsPath(nodes[1..], q)
  }

  function At(nodes: seq<Node>, p: Path): Node
    requires IsPath(nodes, p)
    decreases p
  {
    match p
    case Hit => nodes[0]
    case Down(q) => At(nodes[0].kids, q)
    case Next(q) => At(nodes[1..], q)
  }

  /** The names of the elements that enclose a place, outermost first. */
  function Ancestors(nodes: seq<Node>, p: Path): seq<string>
    requires IsPath(nodes, p)
    decreases p
  {
    match p
    case Hit => []
    case Down(q) => [nodes[0].name] + Ancestors(nodes[0].kids, q)
    case Next(q) => Ancestors(nodes[1..], q)
  }

  /** The position of a place in the token stream. */
  function Position(nodes: seq<Node>, p: Path): nat
    requires IsPath(nodes, p)
    decreases p
  {
    match p
    case Hit => 0
    case Down(q) => 1 + Position(nodes[0].kids, q)
    case Next(q) => NodeSize(nodes[0]) + Position(nodes[1..], q)
  }

  /** Document order. */
  predicate Before(p: Path, q: Path) {
    match (p, q)
    case (Hit, Down(_)) => true
    case (Hit, Next(_)) => true
    case (Down(_), Next(_)) => true
    case (Down(x), Down(y)) => Before(x, y)
    case (Next(x), Next(y)) => Before(x, y)
    case _ => false
  }

  /** The place of a Data whose parent is a Success without a Success above it. */
  predicate IsPayload(nodes: seq<Node>, p: Path) {
    IsPath(nodes, p) && At(nodes, p).Element? && At(nodes, p).name == "Data"
    && var up := Ancestors(nodes, p);
    up != [] && up[|up| - 1] == "Success" && "Success" !in up[..|up| - 1]
  }

  /** The place of a Data among the nodes themselves. */
  predicate IsTopData(nodes: seq<Node>, p: Path) {
    IsPath(nodes, p) && Ancestors(nodes, p) == [] && At(nodes, p).Element? && At(nodes, p).name == "Data"
  }

  /** The search among the children of a Success. */
  function FindChild(nodes: seq<Node>): Option<Path> {
    if nodes == [] then None
    else if nodes[0].Element? && nodes[0].name == "Data" then Some(Hit)
    else InLater(FindChild(nodes[1..]))
  }

  /** The search outside any Success. */
  function Find(nodes: seq<Node>): Option<Path> {
    if nodes == [] then None else
      var here := if nodes[0].Text? then None
                  else if nodes[0].name == "Success" then FindChild(nodes[0].kids)
                  else Find(nodes[0].kids);
      if here.Some? then Some(Down(here.value)) else InLater(Find(nodes[1..]))
  }

  function InLater(r: Option<Path>): Option<Path> {
    if r.Some? then Some(Next(r.value)) else None
  }

  // ---------------------------------------------------------------- the loop finds what the tree search finds

  lemma ScanStep(t: Token, tail: seq<Token>, depth: int, success: Option<int>)
    ensures Scan([t] + tail, depth, success) ==
              (match t
               case Start(name) =>
                 if name == "Success" && success.None? then LaterBy(1, Scan(tail, depth + 1, Some(depth + 1)))
                 else if name == "Data" && success.Some? && depth + 1 == success.value + 1 then Some(0)
                 else LaterBy(1, Scan(tail, depth + 1, success))
               case End(_) =>
                 LaterBy(1, Scan(tail, depth - 1, if success.Some? && depth == success.value then None else success))
               case CharData => LaterBy(1, Scan(tail, depth, success)))
  {
    assert ([t] + tail)[1..] == tail;
  }

  /** Nothing below the children of the Success that is open can match. */
  lemma {:induction false} ScanDeep(nodes: seq<Node>, rest: seq<Token>, depth: int, success: int)
    requires depth > success
    ensures Scan(Stream(nodes, rest), depth, Some(success)) == LaterBy(Size(nodes), Scan(rest, depth, Some(success)))
    decreases nodes
  {
    if nodes != [] {
      var tail := Stream(nodes[1..], rest);
      ScanDeep(nodes[1..], rest, depth, success);
      match nodes[0] {
        case Text => ScanStep(CharData, tail, depth, Some(success));
        case Element(name, kids) =>
          ScanStep(Start(name), Stream(kids, [End(name)] + tail), depth, Some(success));
          ScanDeep(kids, [End(name)] + tail, depth + 1, success);
          ScanStep(End(name), tail, depth + 1, Some(success));
      }
    }
  }

  /** Among the children of the open Success the loop stops at the first Data. */
  lemma {:induction false} ScanChildren(nodes: seq<Node>, rest: seq<Token>, depth: int)
    ensures var p := FindChild(nodes);
            (p.Some? ==> IsPath(nodes, p.value))
            && Scan(Stream(nodes, rest), depth, Some(depth)) ==
                 (if p.Some? then Some(Position(nodes, p.value))
                     else LaterBy(Size(nodes), Scan(rest, depth, Some(depth))))
    decreases nodes
  {
    if nodes != [] {
      var tail := Stream(nodes[1..], rest);
      ScanChildren(nodes[1..], rest, depth);
      match nodes[0] {
        case Text => ScanStep(CharData, tail, depth, Some(depth));
        case Element(name, kids) =>
          ScanStep(Start(name), Stream(kids, [End(name)] + tail), depth, Some(depth));
          ScanDeep(kids, [End(name)] + tail, depth + 1, depth);
          ScanStep(End(name), tail, depth + 1, Some(depth));
      }
    }
  }

  /** A Success met outside any other: its children are searched, nothing deeper. */
  lemma ScanSuccess(kids: seq<Node>, tail: seq<Token>, depth: int)
    ensures var p := FindChild(kids);
            (p.Some? ==> IsPath(kids, p.value))
            && Scan([Start("Success")] + Stream(kids, [End("Success")] + tail), depth, None) ==
                 (if p.Some? then Some(1 + Position(kids, p.value))
                     else LaterBy(2 + Size(kids), Scan(tail, depth, None)))
  {
    var inner := [End("Success")] + tail;
    ScanStep(Start("Success"), Stream(kids, inner), depth, None);
    ScanChildren(kids, inner, depth + 1);
    ScanStep(End("Success"), tail, depth + 1, Some(depth + 1));
  }

  /** Any other element met outside a Success: its children are searched the same way. */
  lemma ScanOther(name: string, kids: seq<Node>, tail: seq<Token>, depth: int)
    requires name != "Success"
    requires Scan(Stream(kids, [End(name)] + tail), depth + 1, None) ==
               (if Find(kids).Some? && IsPath(kids, Find(kids).value) then Some(Position(kids, Find(kids).value))
                else LaterBy(Size(kids), Scan([End(name)] + tail, depth + 1, None)))
    ensures Scan([Start(name)] + Stream(kids, [End(name)] + tail), depth, None) ==
              (if Find(kids).Some? && IsPath(kids, Find(kids).value) then Some(1 + Position(kids, Find(kids).value))
               else LaterBy(2 + Size(kids), Scan(tail, depth, None)))
  {
    ScanStep(Start(name), Stream(kids, [End(name)] + tail), depth, None);
    ScanStep(End(name), tail, depth + 1, None);
  }

  lemma {:induction false} ScanFinds(nodes: seq<Node>, rest: seq<Token>, depth: int)
    ensures var p := Find(nodes);
            (p.Some? ==> IsPath(nodes, p.value))
            && Scan(Stream(nodes, rest), depth, None) ==
                 (if p.Some? then Some(Position(nodes, p.value)) else LaterBy(Size(nodes), Scan(rest, depth, None)))
    decreases nodes
  {
    if nodes != [] {
      var tail := Stream(nodes[1..], rest);
      ScanFinds(nodes[1..], rest, depth);
      match nodes[0] {
        case Text => ScanStep(CharData, tail, depth, None);
        case Element(name, kids) =>
          if name == "Success" {
            ScanSuccess(kids, tail, depth);
          } else {
            ScanFinds(kids, [End(name)] + tail, depth + 1);
            ScanOther(name, kids, tail, depth);
          }
      }
    }
  }

  // ---------------------------------------------------------------- the tree search finds the first payload

  lemma {:induction false} FindChildIsFirst(nodes: seq<Node>)
    ensures FindChild(nodes).Some? ==> IsTopData(nodes, FindChild(nodes).value)
    ensures forall q :: IsTopData(nodes, q) ==>
              FindChild(nodes).Some? && (q == FindChild(nodes).value || Before(FindChild(nodes).value, q))
  {
    if nodes != [] {
      FindChildIsFirst(nodes[1..]);
      forall q | IsTopData(nodes, q)
        ensures FindChild(nodes).Some? && (q == FindChild(nodes).value || Before(FindChild(nodes).value, q))
      {
        assert q.Next? ==> IsTopData(nodes[1..], q.later);
      }
    }
  }

  /** A payload below an element is a child Data of it, if the element is a Success, and a payload of its
      children otherwise. */
  lemma PayloadBelow(nodes: seq<Node>, q: Path)
    requires nodes != [] && nodes[0].Element?
    ensures IsPayload(nodes, Down(q)) <==>
              if nodes[0].name == "Success" then IsTopData(nodes[0].kids, q) else IsPayload(nodes[0].kids, q)
  {
    if IsPath(nodes[0].kids, q) {
      var up, below := Ancestors(nodes, Down(q)), Ancestors(nodes[0].kids, q);
      assert up == [nodes[0].name] + below;
      if below != [] {
        assert up[..|up| - 1] == [nodes[0].name] + below[..|below| - 1];
        assert nodes[0].name in up[..|up| - 1];
        assert "Success" in up[..|up| - 1] <==> nodes[0].name == "Success" || "Success" in below[..|below| - 1];
      } else {
        assert up[..|up| - 1] == [];
      }
    }
  }

  /** `r` is the first payload of the forest, or says that there is none. */
  ghost predicate FirstPayload(nodes: seq<Node>, r: Option<Path>) {
    (r.Some? ==> IsPayload(nodes, r.value))
    && forall q :: IsPayload(nodes, q) ==> r.Some? && (q == r.value || Before(r.value, q))
  }

  lemma {:induction false} FindIsFirst(nodes: seq<Node>)
    ensures FirstPayload(nodes, Find(nodes))
    decreases nodes
  {
    if nodes != [] {
      FindIsFirst(nodes[1..]);
      if nodes[0].Element? {
        FindIsFirst(nodes[0].kids);
        FindChildIsFirst(nodes[0].kids);
        if Find(nodes).Some? && Find(nodes).value.Down? {
          PayloadBelow(nodes, Find(nodes).value.below);
        }
      }
      forall q | IsPayload(nodes, q)
        ensures Find(nodes).Some? && (q == Find(nodes).value || Before(Find(nodes).value, q))
      {
        match q {
          case Hit =>
          case Down(below) => PayloadBelow(nodes, below);
          case Next(later) => assert IsPayload(nodes[1..], later);
        }
      }
    }
  }

  /** decodeSuccessData on any well-nested document: it stops at the first Data, in document order, whose
      parent is a Success with no Success above it, and fails exactly when the document has none. */
  lemma DecodesTheFirstPayload(doc: seq<Node>)
    ensures FirstPayload(doc, Find(doc))
    ensures Scan(Stream(doc, []), 0, None) == if Find(doc).Some? then Some(Position(doc, Find(doc).value)) else None
    ensures Scan(Stream(doc, []), 0, None).None? <==> forall p :: !IsPayload(doc, p)
  {
    FindIsFirst(doc);
    ScanFinds(doc, [], 0);
  }

  /** The first node of a list and what follows it in the stream. */
  lemma StreamFirst(nodes: seq<Node>, rest: seq<Token>)
    requires nodes != []
    ensures Stream(nodes, rest) == Stream([nodes[0]], Stream(nodes[1..], rest))
    ensures |Stream(nodes, rest)| >= NodeSize(nodes[0])
    ensures Stream(nodes, rest)[NodeSize(nodes[0])..] == Stream(nodes[1..], rest)
  {
    assert [nodes[0]][1..] == [];
    assert Size([nodes[0]]) == NodeSize(nodes[0]) + Size([]);
    StreamEnds([nodes[0]], Stream(nodes[1..], rest));
  }

  /** What the decoder reads from a place on is the node there, and after it the rest of the document. */
  lemma {:induction false} StreamAt(nodes: seq<Node>, p: Path, rest: seq<Token>) returns (after: seq<Token>)
    requires IsPath(nodes, p)
    ensures Position(nodes, p) <= |Stream(nodes, rest)|
    ensures Stream(nodes, rest)[Position(nodes, p)..] == Stream([At(nodes, p)], after)
    ensures Depth(after) == Depth(rest) - |Ancestors(nodes, p)|
    decreases p
  {
    var tail := Stream(nodes[1..], rest);
    StreamFirst(nodes, rest);
    StreamBalances(nodes[1..], rest);
    match p {
      case Hit =>
        after := tail;
      case Down(q) =>
        var name, kids := nodes[0].name, nodes[0].kids;
        after := StreamAt(kids, q, [End(name)] + tail);
        DepthFirst(End(name), tail);
        var inner, k := Stream(kids, [End(name)] + tail), Position(kids, q);
        assert Stream(nodes, rest) == [Start(name)] + inner;
        DropCons(Start(name), inner, k);
      case Next(q) =>
        after := StreamAt(nodes[1..], q, rest);
        var k := Position(nodes[1..], q);
        DropDrop(Stream(nodes, rest), NodeSize(nodes[0]), k);
    }
  }

  // ---------------------------------------------------------------- the depth counter

  lemma {:induction false} DepthAppend(a: seq<Token>, b: seq<Token>)
    ensures Depth(a + b) == Depth(a) + Depth(b)
    decreases |b|
  {
    if b == [] {
      assert a + b == a;
    } else {
      DepthAppend(a, b[..|b| - 1]);
      assert (a + b)[..|a + b| - 1] == a + b[..|b| - 1];
    }
  }

  lemma DepthFirst(t: Token, tail: seq<Token>)
    ensures Depth([t] + tail) == Depth(tail) + (if t.Start? then 1 else if t.End? then -1 else 0)
  {
    DepthAppend([t], tail);
    assert [t][..0] == [];
  }

  /** Complete nodes leave the depth as it was. */
  lemma {:induction false} StreamBalances(nodes: seq<Node>, rest: seq<Token>)
    ensures Depth(Stream(nodes, rest)) == Depth(rest)
    decreases nodes
  {
    if nodes != [] {
      var tail := Stream(nodes[1..], rest);
      StreamBalances(nodes[1..], rest);
      match nodes[0] {
        case Text =>
          DepthFirst(CharData, tail);
        case Element(name, kids) =>
          DepthFirst(End(name), tail);
          StreamBalances(kids, [End(name)] + tail);
          DepthFirst(Start(name), Stream(kids, [End(name)] + tail));
      }
    }
  }

  /** The depth counter is the true nesting depth: where the loop reaches a node of the tree, it holds the
      number of elements that enclose the node. */
  lemma DepthIsNesting(nodes: seq<Node>, p: Path, rest: seq<Token>)
    requires IsPath(nodes, p)
    ensures Position(nodes, p) <= |Stream(nodes, rest)|
    ensures Depth(Stream(nodes, rest)[..Position(nodes, p)]) == |Ancestors(nodes, p)|
  {
    var after := StreamAt(nodes, p, rest);
    var all, k := Stream(nodes, rest), Position(nodes, p);
    assert all == all[..k] + all[k..];
    DepthAppend(all[..k], all[k..]);
    StreamBalances(nodes, rest);
    StreamBalances([At(nodes, p)], after);
  }

  // ---------------------------------------------------------------- the documented place

  /** The place the documentation names: a Data that is a direct child of Response>Success. */
  predicate Documented(doc: seq<Node>, p: Path) {
    IsPath(doc, p) && At(doc, p).Element? && At(doc, p).name == "Data" && Ancestors(doc, p) == ["Response", "Success"]
  }

  /** The search keeps to the documentation: what it finds is a documented place, and it fails only on documents
      without one. */
  ghost predicate MeetsDocumentation(doc: seq<Node>) {
    if Find(doc).Some? then Documented(doc, Find(doc).value) else forall p :: !Documented(doc, p)
  }

  lemma DocumentedIsPayload(doc: seq<Node>, p: Path)
    requires Documented(doc, p)
    ensures IsPayload(doc, p)
  {
    assert Ancestors(doc, p)[..1] == ["Response"];
  }

  /** The search keeps to the documentation if and only if no other payload comes before all documented ones. */
  lemma MeetsDocumentationExactly(doc: seq<Node>)
    ensures MeetsDocumentation(doc) <==>
              forall q :: IsPayload(doc, q) && !Documented(doc, q) ==> exists p :: Documented(doc, p) && Before(p, q)
  {
    FindIsFirst(doc);
    if Find(doc).Some? {
      var f := Find(doc).value;
      if !Documented(doc, f) {
        forall p | Documented(doc, p) ensures !Before(p, f) {
          DocumentedIsPayload(doc, p);
          BeforeIsStrict(p, f);
        }
      }
    } else {
      forall p ensures !Documented(doc, p) {
        if Documented(doc, p) {
          DocumentedIsPayload(doc, p);
        }
      }
    }
  }

  lemma {:induction false} BeforeIsStrict(p: Path, q: Path)
    ensures !(Before(p, q) && Before(q, p)) && !Before(p, p)
    decreases p
  {
    match (p, q) {
      case (Down(x), Down(y)) => BeforeIsStrict(x, y);
      case (Next(x), Next(y)) => BeforeIsStrict(x, y);
      case (Down(x), _) => BeforeIsStrict(x, x);
      case (Next(x), _) => BeforeIsStrict(x, x);
      case _ =>
    }
  }

  /** A response that passes the envelope check and whose payload is not where the documentation says: a Success
      below another element of Response. */
  lemma SuccessMayBeDeeper()
    ensures var doc := [Element("Response", [Element("Wrap", [Element("Success", [Element("Data", [])])])])];
            !MeetsDocumentation(doc) && Scan(Stream(doc, []), 0, None) == Some(3)
  {
    var data := Element("Data", []);
    var success := Element("Success", [data]);
    var wrap := Element("Wrap", [success]);
    var doc := [Element("Response", [wrap])];
    DecodesTheFirstPayload(doc);
    assert Find([success]) == Some(Down(Hit));
    assert Find([wrap]) == Some(Down(Down(Hit)));
    assert Find(doc) == Some(Down(Down(Down(Hit))));
    assert Ancestors(doc, Find(doc).value) == ["Response", "Wrap", "Success"];
  }
}
