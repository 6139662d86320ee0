/** The bytes that credentialFingerprint hashes. */
module Fingerprint {
  import opened Prelude
  import opened Text

  datatype System = System(name: string, host: string, port: int, apiKey: string, username: string,
                           password: string, insecureSkipVerify: bool)

  /** strconv.FormatBool. */
  function FormatBool(b: bool): string {
    if b then "true" else "false"
  }

  function Fields(sys: System): seq<string> {
    [sys.host, Itoa(sys.port), sys.apiKey, sys.username, sys.password, FormatBool(sys.insecureSkipVerify)]
  }

  /** Each field after its decimal length and a colon. */
  function Encode(fields: seq<string>): string {
    if fields == [] then "" else Digits(|fields[0]|) + [':'] + fields[0] + Encode(fields[1..])
  }

  function Preimage(sys: System): string {
    Encode(Fields(sys))
  }

  /** The position of the first colon, or the length when there is none. */
  function ColonAt(s: string): (k: nat)
    ensures k <= |s| && ':' !in s[..k] && (k < |s| ==> s[k] == ':')
  {
    if s == "" || s[0] == ':' then 0 else
      var k := 1 + ColonAt(s[1..]);
      assert s[..k] == [s[0]] + s[1..][..k - 1];
      k
  }

  /** The reader that undoes Encode: a length, a colon, that many characters, again. */
  function Decode(s: string): Option<seq<string>>
    decreases |s|
  {
    if s == "" then Some([]) else
      var k := ColonAt(s);
      if k == |s| || Value(s[..k]) < 0 || |s| - k - 1 < Value(s[..k]) then None else
        var n := Value(s[..k]);
        var rest := Decode(s[k + 1 + n..]);
        if rest.None? then None else Some([s[k + 1..k + 1 + n]] + rest.value)
  }

  /** The preimage is uniquely decodable, whatever the fields hold, colons and digits included. */
  lemma {:induction false} DecodeUndoesEncode(fields: seq<string>)
    ensures Decode(Encode(fields)) == Some(fields)
  {
    if fields != [] {
      var d, f, rest := Digits(|fields[0]|), fields[0], Encode(fields[1..]);
      var s := d + [':'] + f + rest;
      assert s == Encode(fields);
      var k := ColonAt(s);
      assert s[|d|] == ':' && forall i :: 0 <= i < |d| ==> s[i] != ':';
      assert k == |d|;
      assert s[..k] == d;
      ValueOfDigits(|f|);
      assert s[k + 1..k + 1 + |f|] == f && s[k + 1 + |f|..] == rest;
      DecodeUndoesEncode(fields[1..]);
      assert [f] + fields[1..] == fields;
    }
  }

  /** Two systems have one preimage exactly when every field that decides which credential goes where is
      equal; the name is not among them. */
  lemma PreimageDistinguishes(a: System, b: System)
    ensures Preimage(a) == Preimage(b) <==> a.(name := b.name) == b
  {
    if Preimage(a) == Preimage(b) {
      DecodeUndoesEncode(Fields(a));
      DecodeUndoesEncode(Fields(b));
      var x, y := Fields(a), Fields(b);
      assert x == y;
      assert x[0] == y[0] && x[1] == y[1] && x[2] == y[2] && x[3] == y[3] && x[4] == y[4] && x[5] == y[5];
      AtoiUndoesItoa(a.port);
      AtoiUndoesItoa(b.port);
      assert "true"[0] == 't' && "false"[0] == 'f';
    }
  }

  /** The hashing loop feeds exactly the preimage. */
  method FeedHash(fields: seq<string>) returns (fed: string)
    ensures fed == Encode(fields) && Decode(fed) == Some(fields)
  {
    fed := "";
    for i := 0 to |fields|
      invariant fed + Encode(fields[i..]) == Encode(fields)
    {
      assert fields[i..][0] == fields[i] && fields[i..][1..] == fields[i + 1..];
      var piece := Digits(|fields[i]|) + [':'] + fields[i];
      assert fed + (piece + Encode(fields[i + 1..])) == fed + piece + Encode(fields[i + 1..]);
      fed := fed + piece;
    }
    DecodeUndoesEncode(fields);
  }
}
