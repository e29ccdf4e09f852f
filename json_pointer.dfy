/** JSON Pointer (section 3 and 4 of RFC 6901), as the `json-pointer` package
    evaluates it on a parsed document: a lookup that yields the addressed value
    or nothing. */
module JsonPointer {
  import opened Wrappers
  import opened Json
  import Text

  /** Decoding of one reference token (section 4 of RFC 6901): `~1` stands for
      `/` and `~0` for `~`; every other character is itself. */
  function Unescape(t: string): string {
    if |t| == 0 then ""
    else if t[0] == '~' && |t| >= 2 && t[1] == '1' then "/" + Unescape(t[2..])
    else if t[0] == '~' && |t| >= 2 && t[1] == '0' then "~" + Unescape(t[2..])
    else [t[0]] + Unescape(t[1..])
  }

  /** Encoding of one reference token (section 3 of RFC 6901). */
  function Escape(t: string): (e: string)
    ensures '/' !in e
  {
    if |t| == 0 then ""
    else if t[0] == '~' then "~0" + Escape(t[1..])
    else if t[0] == '/' then "~1" + Escape(t[1..])
    else [t[0]] + Escape(t[1..])
  }

  /** Decoding inverts encoding, for every token. */
  lemma {:induction false} UnescapeEscape(t: string)
    ensures Unescape(Escape(t)) == t
  {
    if |t| > 0 {
      UnescapeEscape(t[1..]);
      var rest := Escape(t[1..]);
      if t[0] == '~' {
        assert ("~0" + rest)[2..] == rest;
      } else if t[0] == '/' {
        assert ("~1" + rest)[2..] == rest;
      } else {
        assert ([t[0]] + rest)[1..] == rest;
      }
      assert t == [t[0]] + t[1..];
    }
  }

  /** `pointer.parse`: the empty pointer addresses the whole document; any
      other pointer must start with `/` and is split into decoded tokens. */
  function Parse(p: string): Option<seq<string>> {
    if p == "" then Some([])
    else if p[0] != '/' then None
    else
      var raw := Text.Split(p[1..], '/');
      Some(seq(|raw|, i requires 0 <= i < |raw| => Unescape(raw[i])))
  }

  /** `pointer.compile`: the text of the pointer made of `tokens`. */
  function Compile(tokens: seq<string>): string {
    if tokens == [] then ""
    else "/" + Text.Join(seq(|tokens|, i requires 0 <= i < |tokens| => Escape(tokens[i])), '/')
  }

  /** Parsing the compiled text of a token list gives that list back. */
  lemma ParseCompile(tokens: seq<string>)
    ensures Parse(Compile(tokens)) == Some(tokens)
  {
    if tokens != [] {
      var escaped := seq(|tokens|, i requires 0 <= i < |tokens| => Escape(tokens[i]));
      var p := Compile(tokens);
      assert p[1..] == Text.Join(escaped, '/');
      Text.SplitJoin(escaped, '/');
      var raw := Text.Split(p[1..], '/');
      assert raw == escaped;
      forall i | 0 <= i < |tokens| ensures Unescape(raw[i]) == tokens[i] {
        UnescapeEscape(tokens[i]);
      }
      assert p != "" && p[0] == '/';
      var decoded := seq(|raw|, i requires 0 <= i < |raw| => Unescape(raw[i]));
      assert decoded == tokens;
    }
  }

  /** A token that names an array element: a decimal numeral without
      leading zeros, as JavaScript writes array indices. */
  predicate IsIndexToken(tok: string) {
    |tok| >= 1 && (forall i | 0 <= i < |tok| :: '0' <= tok[i] <= '9') && (tok[0] == '0' ==> |tok| == 1)
  }

  function DigitsValue(tok: string): nat
    requires forall i | 0 <= i < |tok| :: '0' <= tok[i] <= '9'
  {
    if |tok| == 0 then 0
    else DigitsValue(tok[..|tok| - 1]) * 10 + (tok[|tok| - 1] as int - '0' as int)
  }

  /** One step of evaluation: a member of an object, an element of an array. */
  function Step(j: Json, tok: string): Option<Json> {
    match j
    case JObject(members) => Get(members, tok)
    case JArray(items) =>
      if IsIndexToken(tok) && DigitsValue(tok) < |items| then Some(items[DigitsValue(tok)]) else None
    case _ => None
  }

  /** Evaluation of a token list from `j`. */
  function Walk(j: Json, tokens: seq<string>): Option<Json>
    decreases |tokens|
  {
    if tokens == [] then Some(j)
    else match Step(j, tokens[0])
      case None => None
      case Some(c) => Walk(c, tokens[1..])
  }

  /** `pointer.get(doc, p)`, with a failed evaluation as None. */
  function Lookup(doc: Json, p: string): Option<Json> {
    match Parse(p)
    case None => None
    case Some(tokens) => Walk(doc, tokens)
  }

  /** Evaluating a concatenated token list is evaluating the first part and
      then the second from where the first ends. */
  lemma {:induction false} WalkConcat(j: Json, a: seq<string>, b: seq<string>)
    ensures Walk(j, a + b) == (match Walk(j, a) case None => None case Some(m) => Walk(m, b))
    decreases |a|
  {
    if a == [] {
      assert a + b == b;
    } else {
      assert (a + b)[0] == a[0];
      assert (a + b)[1..] == a[1..] + b;
      match Step(j, a[0])
      case None =>
      case Some(c) => WalkConcat(c, a[1..], b);
    }
  }
}
