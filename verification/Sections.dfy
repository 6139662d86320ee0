/** The CPU and Network sections: UnmarshalXML over the decoder, row by row. Both loops are the same, with the
    row type `F` as the only difference. */
module Sections {
  import opened Prelude
  import opened XmlTokens

  /** A row: the child's element name and its decoded fields. */
  datatype Row<F> = Row(id: string, fields: F)

  /** The tokens up to and including the end-tag that closes the `depth`-th open element. */
  function Closing(toks: seq<Token>, depth: nat): Option<nat>
    requires depth > 0
    decreases |toks|
  {
    if toks == [] then None else
      match toks[0]
      case Start(_) => LaterBy(1, Closing(toks[1..], depth + 1))
      case End(_) => if depth == 1 then Some(1) else LaterBy(1, Closing(toks[1..], depth - 1))
      case CharData => LaterBy(1, Closing(toks[1..], depth))
  }

  /** Complete nodes never close an element that was open before them. */
  lemma {:induction false} ClosingSkips(nodes: seq<Node>, rest: seq<Token>, depth: nat)
    requires depth > 0
    ensures Closing(Stream(nodes, rest), depth) == LaterBy(Size(nodes), Closing(rest, depth))
    decreases nodes
  {
    if nodes != [] {
      var tail := Stream(nodes[1..], rest);
      ClosingSkips(nodes[1..], rest, depth);
      match nodes[0] {
        case Text =>
          assert ([CharData] + tail)[1..] == tail;
        case Element(name, kids) =>
          var inner := Stream(kids, [End(name)] + tail);
          assert ([Start(name)] + inner)[1..] == inner;
          ClosingSkips(kids, [End(name)] + tail, depth + 1);
          assert ([End(name)] + tail)[1..] == tail;
      }
    }
  }

  /** The tokens of a list of nodes do not depend on what follows them. */
  lemma {:induction false} StreamPrefix(nodes: seq<Node>, rest: seq<Token>)
    ensures Stream(nodes, rest) == Stream(nodes, []) + rest
    decreases nodes
  {
    if nodes != [] {
      StreamPrefix(nodes[1..], rest);
      if nodes[0].Element? {
        var kids, close := nodes[0].kids, [End(nodes[0].name)];
        StreamPrefix(kids, close + Stream(nodes[1..], rest));
        StreamPrefix(kids, close + Stream(nodes[1..], []));
      }
    }
  }

  class Decoder {
    const toks: seq<Token>
    var pos: nat

    ghost predicate Valid()
      reads this
    {
      pos <= |toks|
    }

    /** The tokens still to come. */
    function Rest(): seq<Token>
      requires Valid()
      reads this
    {
      toks[pos..]
    }

    constructor (toks: seq<Token>)
      ensures Valid() && Rest() == toks && this.toks == toks
    {
      this.toks, pos := toks, 0;
    }

    /** d.Token: the next token, or nothing at the end of the input. */
    method Token() returns (t: Option<Token>)
      requires Valid()
      modifies this
      ensures Valid()
      ensures old(Rest()) == [] ==> t.None? && Rest() == []
      ensures old(Rest()) != [] ==> t == Some(old(Rest())[0]) && Rest() == old(Rest())[1..]
    {
      if pos == |toks| {
        return None;
      }
      t := Some(toks[pos]);
      pos := pos + 1;
    }

    /** d.DecodeElement after its start-tag: the tokens of the element's content, or nothing when the input
        ends first. It leaves the decoder behind the element's own end-tag. */
    method DecodeElement() returns (body: Option<seq<Token>>)
      requires Valid()
      modifies this
      ensures Valid()
      ensures body.Some? <==> Closing(old(Rest()), 1).Some?
      ensures pos >= old(pos)
      ensures body.Some? ==> var n := Closing(old(Rest()), 1).value;
                             0 < n <= |old(Rest())| && Rest() == old(Rest())[n..] && body.value == old(Rest())[..n - 1]
    {
      var start, depth := pos, 1;
      while pos < |toks|
        invariant start == old(pos) <= pos <= |toks| && depth > 0
        invariant Closing(toks[start..], 1) == LaterBy(pos - start, Closing(toks[pos..], depth))
        decreases |toks| - pos
      {
        assert toks[pos..][1..] == toks[pos + 1..];
        match toks[pos] {
          case Start(_) => depth := depth + 1;
          case End(_) =>
            if depth == 1 {
              body := Some(toks[start..pos]);
              pos := pos + 1;
              return;
            }
            depth := depth - 1;
          case CharData =>
        }
        pos := pos + 1;
      }
      body := None;
    }
  }

  /** One row per element among the nodes, in order. */
  function Rows<F>(nodes: seq<Node>, decode: seq<Token> -> Option<F>): seq<Row<F>> {
    if nodes == [] then []
    else if nodes[0].Text? then Rows(nodes[1..], decode)
    else
      var f := decode(Stream(nodes[0].kids, []));
      if f.None? then [] else [Row(nodes[0].name, f.value)] + Rows(nodes[1..], decode)
  }

  /** Every element among the nodes decodes. */
  predicate AllDecode<F>(nodes: seq<Node>, decode: seq<Token> -> Option<F>) {
    forall i :: 0 <= i < |nodes| && nodes[i].Element? ==> decode(Stream(nodes[i].kids, [])).Some?
  }

  /** How many of the nodes are elements. */
  function Elements(nodes: seq<Node>): nat {
    if nodes == [] then 0 else (if nodes[0].Element? then 1 else 0) + Elements(nodes[1..])
  }

  /** Where every element decodes there is one row for each and no other; a child's row stands where the elements
      before it leave off, under the child's own name and with its own fields. */
  lemma {:induction false} RowOfChild<F>(kids: seq<Node>, decode: seq<Token> -> Option<F>, i: nat)
    requires i < |kids| && kids[i].Element? && AllDecode(kids, decode)
    ensures Elements(kids[..i]) < |Rows(kids, decode)| == Elements(kids)
    ensures decode(Stream(kids[i].kids, [])).Some?
    ensures Rows(kids, decode)[Elements(kids[..i])] == Row(kids[i].name, decode(Stream(kids[i].kids, [])).value)
  {
    FirstDecodes(kids, decode);
    if i > 0 {
      assert kids[..i][1..] == kids[1..][..i - 1];
      RowOfChild(kids[1..], decode, i - 1);
    } else {
      RowCount(kids[1..], decode);
    }
  }

  lemma {:induction false} RowCount<F>(kids: seq<Node>, decode: seq<Token> -> Option<F>)
    requires AllDecode(kids, decode)
    ensures |Rows(kids, decode)| == Elements(kids)
  {
    if kids != [] {
      FirstDecodes(kids, decode);
      RowCount(kids[1..], decode);
    }
  }

  /** The decoder stands before the nodes of `kids` and the section's end-tag. */
  ghost predicate Stands(toks: seq<Token>, kids: seq<Node>, name: string, rest: seq<Token>) {
    toks == Stream(kids, [End(name)] + rest)
  }

  /** It has read the start-tag of the first of them. */
  ghost predicate Inside(toks: seq<Token>, kids: seq<Node>, name: string, rest: seq<Token>) {
    kids != [] && kids[0].Element?
    && toks == Stream(kids[0].kids, [End(kids[0].name)] + Stream(kids[1..], [End(name)] + rest))
  }

  lemma ContentOfElement(kids: seq<Node>, name: string, rest: seq<Token>)
    ensures Closing(Stream(kids, [End(name)] + rest), 1) == Some(Size(kids) + 1)
    ensures |Stream(kids, [End(name)] + rest)| > Size(kids)
    ensures Stream(kids, [End(name)] + rest)[Size(kids) + 1..] == rest
    ensures Stream(kids, [End(name)] + rest)[..Size(kids)] == Stream(kids, [])
  {
    var tail := [End(name)] + rest;
    ClosingSkips(kids, tail, 1);
    StreamPrefix(kids, tail);
    StreamEnds(kids, []);
    assert (Stream(kids, []) + tail)[Size(kids) + 1..] == tail[1..] == rest;
  }

  /** What the loop meets next: the section's end-tag, or the first of the remaining children. */
  lemma Peek(toks: seq<Token>, kids: seq<Node>, name: string, rest: seq<Token>)
    requires Stands(toks, kids, name, rest)
    ensures toks != []
    ensures kids == [] ==> toks[0] == End(name) && toks[1..] == rest
    ensures kids != [] && kids[0].Text? ==> toks[0] == CharData && Stands(toks[1..], kids[1..], name, rest)
    ensures kids != [] && kids[0].Element? ==> toks[0] == Start(kids[0].name) && Inside(toks[1..], kids, name, rest)
  {
  }

  lemma FirstDecodes<F>(kids: seq<Node>, decode: seq<Token> -> Option<F>)
    requires kids != []
    ensures AllDecode(kids, decode) <==>
              (kids[0].Element? ==> decode(Stream(kids[0].kids, [])).Some?) && AllDecode(kids[1..], decode)
  {
    assert forall i :: 0 < i < |kids| ==> kids[i] == kids[1..][i - 1];
    if AllDecode(kids, decode) {
      assert forall i :: 0 <= i < |kids[1..]| ==> kids[1..][i] == kids[i + 1];
    }
  }

  /** The start-tag branch of the loop: decode one child and append its row. */
  method ReadRow<F>(d: Decoder, child: string, decode: seq<Token> -> Option<F>, rows: seq<Row<F>>,
                    ghost kids: seq<Node>, ghost name: string, ghost rest: seq<Token>)
    returns (ok: bool, rows': seq<Row<F>>)
    requires d.Valid()
    modifies d
    ensures d.Valid() && d.pos >= old(d.pos)
    ensures !ok ==> rows' == rows
    ensures old(Inside(d.Rest(), kids, name, rest)) ==>
              var f := decode(Stream(kids[0].kids, []));
              (ok <==> f.Some?)
              && (ok ==> rows' == rows + [Row(child, f.value)] && Stands(d.Rest(), kids[1..], name, rest))
  {
    if Inside(d.Rest(), kids, name, rest) {
      ContentOfElement(kids[0].kids, kids[0].name, Stream(kids[1..], [End(name)] + rest));
    }
    var body := d.DecodeElement();
    if body.None? {
      return false, rows;
    }
    var f := decode(body.value);
    if f.None? {
      return false, rows;
    }
    return true, rows + [Row(child, f.value)];
  }

  /** UnmarshalXML of a section whose start-tag has been read. For any children, also when a descendant shares
      the section's name: it appends one row per child element, in order, under the child's own name, and
      stops right behind the section's own end-tag; a child that does not decode ends it with an error after
      the rows before it. `kids` and `rest` describe the input when it is well nested; an input that ends
      early is an error. */
  method UnmarshalXML<F>(d: Decoder, name: string, decode: seq<Token> -> Option<F>, rows: seq<Row<F>>,
                         ghost kids: seq<Node>, ghost rest: seq<Token>)
    returns (ok: bool, rows': seq<Row<F>>)
    requires d.Valid()
    modifies d
    ensures d.Valid()
    ensures old(Stands(d.Rest(), kids, name, rest)) ==>
              rows' == rows + Rows(kids, decode) && (ok <==> AllDecode(kids, decode)) && (ok ==> d.Rest() == rest)
  {
    rows' := rows;
    ghost var nested := Stands(d.Rest(), kids, name, rest);
    ghost var left := kids;
    while true
      invariant d.Valid()
      invariant nested ==> Stands(d.Rest(), left, name, rest)
      invariant nested ==> rows' + Rows(left, decode) == rows + Rows(kids, decode)
      invariant nested ==> (AllDecode(left, decode) <==> AllDecode(kids, decode))
      decreases |d.toks| - d.pos
    {
      if nested {
        Peek(d.Rest(), left, name, rest);
        if left != [] {
          FirstDecodes(left, decode);
        }
      }
      var tok := d.Token();
      if tok.None? {
        return false, rows';
      }
      match tok.value {
        case Start(child) =>
          var read;
          read, rows' := ReadRow(d, child, decode, rows', left, name, rest);
          if !read {
            return false, rows';
          }
          left := if nested then left[1..] else left;
        case End(other) =>
          if other == name {
            return true, rows';
          }
        case CharData =>
          left := if nested then left[1..] else left;
      }
    }
  }
}
