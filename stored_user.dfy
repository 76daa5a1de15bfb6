/**
 * The user record of the session (`interface User` in src/contexts/AuthContext.tsx) and
 * the text form it takes in the key-value store.
 *
 * The application writes the record with `JSON.stringify` and reads it back with
 * `JSON.parse`. Those library calls are modelled by a small codec of our own: a JSON-like
 * object with the keys "id", "email" and the optional "name", each value a quoted string
 * in which `"` and `\` are escaped with a backslash. The one property the session relies
 * on is proved below: parsing what was serialised gives the record back. Parsing other
 * text may fail, which is how a corrupt stored record shows up.
 */
module StoredUser {
  import opened Wrappers

  datatype User = User(id: string, email: string, name: Option<string>)

  /** The escaped form of one character inside a quoted string. */
  function EscapeChar(c: char): string {
    if c == '\"' || c == '\\' then ['\\', c] else [c]
  }

  function Escape(s: string): string {
    if s == [] then [] else EscapeChar(s[0]) + Escape(s[1..])
  }

  function Quote(s: string): string {
    ['\"'] + Escape(s) + ['\"']
  }

  /**
   * Reads the body of a quoted string whose opening quote has been consumed: returns the
   * unescaped contents and the text after the closing quote, or None when the string is
   * not terminated or holds an escape other than the two `Escape` writes.
   */
  function Unquote(t: string): Option<(string, string)>
    decreases |t|
  {
    if t == [] then None
    else if t[0] == '\"' then Some(([], t[1..]))
    else if t[0] == '\\' then
      if |t| < 2 || !(t[1] == '\"' || t[1] == '\\') then None
      else match Unquote(t[2..])
        case None => None
        case Some((body, rest)) => Some(([t[1]] + body, rest))
    else match Unquote(t[1..])
      case None => None
      case Some((body, rest)) => Some(([t[0]] + body, rest))
  }

  function ParseString(t: string): Option<(string, string)> {
    if t != [] && t[0] == '\"' then Unquote(t[1..]) else None
  }

  /** The text after the literal `lit` when `t` starts with it. */
  function Expect(lit: string, t: string): (r: Option<string>)
    ensures r.Some? <==> lit <= t
    ensures r.Some? ==> t == lit + r.value
  {
    if lit <= t then Some(t[|lit|..]) else None
  }

  const IdKey := "{\"id\":"
  const EmailKey := ",\"email\":"
  const NameKey := ",\"name\":"
  const Close := "}"

  function NamePart(name: Option<string>): string {
    match name
    case None => []
    case Some(n) => NameKey + Quote(n)
  }

  /** Stands for `JSON.stringify(user)`; an absent name is left out, as JSON.stringify does. */
  function Serialise(u: User): (text: string)
    ensures IdKey <= text && |text| > 0
  {
    IdKey + Quote(u.id) + EmailKey + Quote(u.email) + NamePart(u.name) + Close
  }

  /**
   * Stands for `JSON.parse(text)` on the user slot. None is a parse failure, which the
   * startup code meets as the exception JSON.parse throws.
   */
  function Parse(text: string): (r: Option<User>)
    ensures r.Some? ==> IdKey <= text
  {
    match Expect(IdKey, text)
    case None => None
    case Some(t1) =>
      match ParseString(t1)
      case None => None
      case Some((id, t2)) =>
        match Expect(EmailKey, t2)
        case None => None
        case Some(t3) =>
          match ParseString(t3)
          case None => None
          case Some((email, t4)) =>
            if t4 == Close then Some(User(id, email, None))
            else match Expect(NameKey, t4)
              case None => None
              case Some(t5) =>
                match ParseString(t5)
                case None => None
                case Some((name, t6)) =>
                  if t6 == Close then Some(User(id, email, Some(name))) else None
  }

  /** Unquoting an escaped string followed by a closing quote gives the string back. */
  lemma {:induction false} UnquoteEscape(s: string, rest: string)
    ensures Unquote(Escape(s) + ['\"'] + rest) == Some((s, rest))
  {
    var t := Escape(s) + ['\"'] + rest;
    if s == [] {
      assert t == ['\"'] + rest;
    } else {
      var tail := Escape(s[1..]) + ['\"'] + rest;
      UnquoteEscape(s[1..], rest);
      assert t == EscapeChar(s[0]) + tail;
      if s[0] == '\"' || s[0] == '\\' {
        assert t[2..] == tail;
      } else {
        assert t[1..] == tail;
      }
      assert [s[0]] + s[1..] == s;
    }
  }

  lemma ParseQuote(s: string, rest: string)
    ensures ParseString(Quote(s) + rest) == Some((s, rest))
  {
    var t := Quote(s) + rest;
    assert t[1..] == Escape(s) + ['\"'] + rest;
    UnquoteEscape(s, rest);
  }

  /** The round trip the session relies on at startup: what login stores parses back. */
  lemma ParseSerialise(u: User)
    ensures Parse(Serialise(u)) == Some(u)
  {
    var tail := NamePart(u.name) + Close;
    var t3 := Quote(u.email) + tail;
    var t1 := Quote(u.id) + (EmailKey + t3);
    assert Serialise(u) == IdKey + t1;
    assert Expect(IdKey, Serialise(u)) == Some(t1);
    ParseQuote(u.id, EmailKey + t3);
    assert Expect(EmailKey, EmailKey + t3) == Some(t3);
    ParseQuote(u.email, tail);
    match u.name
    case None =>
      assert tail == Close;
    case Some(n) =>
      assert tail == NameKey + (Quote(n) + Close);
      assert Expect(NameKey, tail) == Some(Quote(n) + Close);
      ParseQuote(n, Close);
  }

  /** Parsing fails on text that does not open with the record's first key. */
  lemma ParseRejectsForeignText(text: string)
    requires !(IdKey <= text)
    ensures Parse(text) == None
  {
  }

  /** Unquoting succeeds only on an escaped string followed by a closing quote. */
  lemma {:induction false} UnquoteSound(t: string)
    requires Unquote(t).Some?
    ensures t == Escape(Unquote(t).value.0) + ['\"'] + Unquote(t).value.1
    decreases |t|
  {
    var (body, rest) := Unquote(t).value;
    if t[0] == '\"' {
      assert body == [] && rest == t[1..];
      assert t == [t[0]] + t[1..];
    } else if t[0] == '\\' {
      UnquoteSound(t[2..]);
      var (b2, r2) := Unquote(t[2..]).value;
      assert body == [t[1]] + b2 && rest == r2;
      assert body[0] == t[1] && body[1..] == b2;
      assert EscapeChar(t[1]) == t[..2];
      assert Escape(body) == t[..2] + Escape(b2);
      assert t == t[..2] + t[2..];
    } else {
      UnquoteSound(t[1..]);
      var (b1, r1) := Unquote(t[1..]).value;
      assert body == [t[0]] + b1 && rest == r1;
      assert body[0] == t[0] && body[1..] == b1;
      assert EscapeChar(t[0]) == [t[0]];
      assert Escape(body) == [t[0]] + Escape(b1);
      assert t == [t[0]] + t[1..];
    }
  }

  lemma ParseStringSound(t: string)
    requires ParseString(t).Some?
    ensures t == Quote(ParseString(t).value.0) + ParseString(t).value.1
  {
    UnquoteSound(t[1..]);
    assert t == [t[0]] + t[1..];
  }

  /** Serialising, written with its pieces nested to the right. */
  lemma SerialiseNested(u: User)
    ensures Serialise(u) == IdKey + (Quote(u.id) + (EmailKey + (Quote(u.email) + (NamePart(u.name) + Close))))
  {
  }

  /** Parsing accepts exactly the texts that serialising writes. */
  lemma ParseSound(text: string)
    requires Parse(text).Some?
    ensures Serialise(Parse(text).value) == text
  {
    var u := Parse(text).value;
    var t1 := Expect(IdKey, text).value;
    ParseStringSound(t1);
    var t2 := ParseString(t1).value.1;
    var t3 := Expect(EmailKey, t2).value;
    ParseStringSound(t3);
    var t4 := ParseString(t3).value.1;
    assert u.id == ParseString(t1).value.0 && u.email == ParseString(t3).value.0;
    if t4 == Close {
      assert u.name == None;
    } else {
      var t5 := Expect(NameKey, t4).value;
      ParseStringSound(t5);
      assert u.name == Some(ParseString(t5).value.0) && ParseString(t5).value.1 == Close;
    }
    assert t4 == NamePart(u.name) + Close;
    SerialiseNested(u);
  }

  /** Together: a stored text parses to `u` exactly when it is the serialised form of `u`. */
  lemma ParseExactlySerialised(text: string, u: User)
    ensures Parse(text) == Some(u) <==> text == Serialise(u)
  {
    if Parse(text) == Some(u) {
      ParseSound(text);
    }
    if text == Serialise(u) {
      ParseSerialise(u);
    }
  }
}
