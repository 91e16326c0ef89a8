/** The part of `JSON.stringify` / `JSON.parse` that the session store relies on:
    flat objects whose property values are strings, such as the stored user
    `{ "email": ..., "name": ..., "avatar_url": ... }`. An object keeps its
    properties in insertion order, as a JavaScript object does. */
module Json {
  import opened Wrappers

  /** A JavaScript object with string-valued properties, in insertion order. */
  type Object = seq<(string, string)>

  ghost predicate KeysDistinct(o: Object) {
    forall i, j :: 0 <= i < j < |o| ==> o[i].0 != o[j].0
  }

  /** Property lookup `o[k]`; `None` is `undefined`. */
  function Get(o: Object, k: string): Option<string> {
    if o == [] then None
    else if o[0].0 == k then Some(o[0].1)
    else Get(o[1..], k)
  }

  /** `{ ...o, [k]: v }`: an existing property keeps its place and takes the new
      value, a new one is appended. */
  function Put(o: Object, k: string, v: string): (r: Object)
    ensures Get(r, k) == Some(v)
    ensures forall k' :: k' != k ==> Get(r, k') == Get(o, k')
    ensures KeysDistinct(o) ==> KeysDistinct(r)
    ensures forall i :: 0 <= i < |r| ==> r[i].0 == k || exists j :: 0 <= j < |o| && o[j] == r[i]
  {
    if o == [] then [(k, v)]
    else if o[0].0 == k then [(k, v)] + o[1..]
    else [o[0]] + Put(o[1..], k, v)
  }

  /** String body with `"` and `\` escaped by a backslash. */
  function Escape(s: string): (r: string)
    ensures |r| >= |s|
  {
    if s == [] then []
    else if s[0] == '"' || s[0] == '\\' then ['\\', s[0]] + Escape(s[1..])
    else [s[0]] + Escape(s[1..])
  }

  function Quote(s: string): string {
    ['"'] + Escape(s) + ['"']
  }

  /** `"k":"v"` pairs separated by commas. */
  function Members(o: Object): string
    requires o != []
  {
    var pair := Quote(o[0].0) + [':'] + Quote(o[0].1);
    if |o| == 1 then pair else pair + [','] + Members(o[1..])
  }

  /** `JSON.stringify(o)`. */
  function Stringify(o: Object): (r: string)
    ensures |r| >= 2 && r[0] == '{' && r[|r| - 1] == '}'
  {
    if o == [] then "{}" else ['{'] + Members(o) + ['}']
  }

  /** Reads a string body up to its unescaped closing quote; returns the text and
      what follows the quote. */
  function ParseBody(s: string): (r: Option<(string, string)>)
    ensures r.Some? ==> |r.value.1| < |s|
  {
    if s == [] then None
    else if s[0] == '"' then Some(([], s[1..]))
    else if s[0] == '\\' then
      if |s| < 2 then None
      else match ParseBody(s[2..])
        case None => None
        case Some((t, rest)) => Some(([s[1]] + t, rest))
    else match ParseBody(s[1..])
      case None => None
      case Some((t, rest)) => Some(([s[0]] + t, rest))
  }

  /** Reads `"k":"v"` pairs up to the closing brace; returns them and what follows it. */
  function ParseMembers(s: string): (r: Option<(Object, string)>)
    ensures r.Some? ==> |r.value.1| < |s|
    decreases |s|
  {
    if s == [] || s[0] != '"' then None
    else match ParseBody(s[1..])
      case None => None
      case Some((k, r1)) =>
        if |r1| < 2 || r1[0] != ':' || r1[1] != '"' then None
        else match ParseBody(r1[2..])
          case None => None
          case Some((v, r2)) =>
            if r2 == [] then None
            else if r2[0] == '}' then Some(([(k, v)], r2[1..]))
            else if r2[0] == ',' then
              match ParseMembers(r2[1..])
              case None => None
              case Some((more, r3)) => Some(([(k, v)] + more, r3))
            else None
  }

  /** `JSON.parse(s)` for flat string objects; `None` where `JSON.parse` throws. */
  function Parse(s: string): Option<Object> {
    if s == "{}" then Some([])
    else if s == [] || s[0] != '{' then None
    else match ParseMembers(s[1..])
      case Some((o, rest)) => if rest == [] then Some(o) else None
      case None => None
  }

  lemma {:induction false} ParseEscaped(t: string, rest: string)
    ensures ParseBody(Escape(t) + ['"'] + rest) == Some((t, rest))
  {
    if t == [] {
      assert Escape(t) + ['"'] + rest == ['"'] + rest;
    } else if t[0] == '"' || t[0] == '\\' {
      var s := Escape(t) + ['"'] + rest;
      assert s == ['\\', t[0]] + (Escape(t[1..]) + ['"'] + rest);
      assert s[2..] == Escape(t[1..]) + ['"'] + rest;
      ParseEscaped(t[1..], rest);
      assert [t[0]] + t[1..] == t;
    } else {
      var s := Escape(t) + ['"'] + rest;
      assert s == [t[0]] + (Escape(t[1..]) + ['"'] + rest);
      assert s[1..] == Escape(t[1..]) + ['"'] + rest;
      ParseEscaped(t[1..], rest);
      assert [t[0]] + t[1..] == t;
    }
  }

  /** One `"k":"v"` pair read off the front of the input. */
  lemma ParseMembersStep(k: string, v: string, tail: string)
    requires tail != []
    ensures ParseMembers(Quote(k) + [':'] + Quote(v) + tail)
      == if tail[0] == '}' then Some(([(k, v)], tail[1..]))
         else if tail[0] == ',' then
           match ParseMembers(tail[1..])
           case None => None
           case Some((more, r3)) => Some(([(k, v)] + more, r3))
         else None
  {
    var b := Escape(v) + ['"'] + tail;
    var r1 := [':', '"'] + b;
    var s := Quote(k) + [':'] + Quote(v) + tail;
    PairShape(k, v, tail);
    ParseEscaped(k, r1);
    assert r1[2..] == b;
    ParseEscaped(v, tail);
    ParseMembersUnfold(s, k, r1, v, tail);
  }

  /** A pair followed by more text is a quote, the escaped key, a quote, `:"`,
      the escaped value and a quote. */
  lemma PairShape(k: string, v: string, tail: string)
    ensures var s := Quote(k) + [':'] + Quote(v) + tail;
      s != [] && s[0] == '"' && s[1..] == Escape(k) + ['"'] + ([':', '"'] + (Escape(v) + ['"'] + tail))
  {
    var b := Escape(v) + ['"'] + tail;
    var r1 := [':', '"'] + b;
    var s := Quote(k) + [':'] + Quote(v) + tail;
    assert Quote(v) + tail == ['"'] + b;
    assert [':'] + (['"'] + b) == r1;
    assert s == Quote(k) + r1;
    assert s == ['"'] + (Escape(k) + ['"'] + r1);
  }

  /** `ParseMembers` once the key, the `:"` and the value have been read. */
  lemma ParseMembersUnfold(s: string, k: string, r1: string, v: string, r2: string)
    requires s != [] && s[0] == '"' && ParseBody(s[1..]) == Some((k, r1))
    requires |r1| >= 2 && r1[0] == ':' && r1[1] == '"' && ParseBody(r1[2..]) == Some((v, r2))
    requires r2 != []
    ensures ParseMembers(s)
      == if r2[0] == '}' then Some(([(k, v)], r2[1..]))
         else if r2[0] == ',' then
           match ParseMembers(r2[1..])
           case None => None
           case Some((more, r3)) => Some(([(k, v)] + more, r3))
         else None
  {
  }

  lemma {:induction false} ParseMembersOfMembers(o: Object, rest: string)
    requires o != []
    ensures ParseMembers(Members(o) + ['}'] + rest) == Some((o, rest))
    decreases |o|
  {
    var (k, v) := o[0];
    var pair := Quote(k) + [':'] + Quote(v);
    if |o| == 1 {
      var tail := ['}'] + rest;
      assert Members(o) + ['}'] + rest == pair + tail;
      ParseMembersStep(k, v, tail);
      assert o == [(k, v)];
    } else {
      var tail := [','] + (Members(o[1..]) + ['}'] + rest);
      assert Members(o) + ['}'] + rest == pair + tail;
      ParseMembersStep(k, v, tail);
      assert tail[1..] == Members(o[1..]) + ['}'] + rest;
      ParseMembersOfMembers(o[1..], rest);
      assert o == [(k, v)] + o[1..];
    }
  }

  /** Round trip: what `JSON.stringify` writes, `JSON.parse` reads back unchanged. */
  lemma {:induction false} ParseStringify(o: Object)
    ensures Parse(Stringify(o)) == Some(o)
  {
    if o != [] {
      var s := Stringify(o);
      assert s[1..] == Members(o) + ['}'] + [];
      ParseMembersOfMembers(o, []);
      assert Members(o)[0] == '"';
      assert s != "{}" by { assert |Members(o)| > 0; assert s[1] == '"'; }
    }
  }
}
