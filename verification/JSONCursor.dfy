/** The client's recogniser as it runs: one cursor moving over the text. */
module JSONCursors {
  import opened Utf16
  import opened Wrappers
  import opened JSONTree
  import opened Recogniser

  /** More content in front of a string's. */
  function Prefixed(content: Text, token: Option<Token>): Option<Token> {
    if token.None? then None else Some(Token(content + token.value.content, token.value.rest))
  }

  lemma PrefixedBefore(content: Text, u: Unit, token: Option<Token>)
    ensures Prefixed(content, Before(u, token)) == Prefixed(content + [u], token)
    ensures Prefixed([], token) == token
    ensures Prefixed(content, None) == None
  {
    if token.Some? {
      assert content + ([u] + token.value.content) == (content + [u]) + token.value.content;
      assert [] + token.value.content == token.value.content;
    }
  }

  /** What a scalar leaves is the end of the text it was read from. */
  ghost predicate EndOf(rest: Text, t: Text) {
    |rest| <= |t| && rest == t[|t| - |rest|..]
  }

  lemma {:induction false} DigitsEnd(t: Text)
    ensures EndOf(AfterDigits(t), t)
  {
    if |t| > 0 && Digit(t[0]) {
      DigitsEnd(t[1..]);
    }
  }

  lemma EndOfEnd(a: Text, b: Text, c: Text)
    requires EndOf(a, b) && EndOf(b, c)
    ensures EndOf(a, c)
  {
  }

  lemma {:induction false} FractionEnd(t: Text)
    ensures EndOf(AfterFraction(t), t)
  {
    if |t| > 1 { DigitsEnd(t[1..]); }
  }

  lemma {:induction false} ExponentEnd(t: Text)
    ensures EndOf(AfterExponent(t), t)
  {
    if |t| > 1 { DigitsEnd(t[1..]); }
    if |t| > 2 { DigitsEnd(t[2..]); }
  }

  lemma {:induction false} NumberEnd(t: Text)
    requires AfterNumber(t).Some?
    ensures EndOf(AfterNumber(t).value, t)
  {
    var unsigned := AfterSign(t);
    var whole := AfterInteger(unsigned).value;
    var fraction := AfterFraction(whole);
    DigitsEnd(unsigned[1..]);
    assert EndOf(whole, unsigned) && EndOf(unsigned, t);
    FractionEnd(whole);
    ExponentEnd(fraction);
    hide AfterInteger, AfterFraction, AfterExponent, AfterDigits, EndOf;
    EndOfEnd(whole, unsigned, t);
    EndOfEnd(fraction, whole, t);
    EndOfEnd(AfterExponent(fraction), fraction, t);
  }

  lemma {:induction false} ScalarEnd(t: Text)
    ensures AfterScalar(t).Some? ==> EndOf(AfterScalar(t).value, t)
  {
    if AfterScalar(t).Some? && !(TRUE <= t) && !(FALSE <= t) && !(NULL <= t) { NumberEnd(t); }
    hide AfterNumber;
  }

  class JSONCursor {
    const text: Text
    var cursor: nat

    ghost predicate Valid()
      reads this
    {
      cursor <= |text|
    }

    ghost function Left(): Text
      requires Valid()
      reads this
    {
      text[cursor..]
    }

    constructor (text: Text)
      ensures Valid() && this.text == text && Left() == text
    {
      this.text, cursor := text, 0;
    }

    predicate At(u: Unit)
      reads this
    {
      cursor < |text| && text[cursor] == u
    }

    method Whitespace()
      requires Valid()
      modifies this
      ensures Valid() && Left() == AfterSpace(old(Left())) && cursor >= old(cursor)
    {
      while cursor < |text| && Space(text[cursor])
        invariant Valid() && AfterSpace(Left()) == AfterSpace(old(Left())) && cursor >= old(cursor)
      {
        assert Left()[1..] == text[cursor + 1..];
        cursor := cursor + 1;
      }
    }

    method Skip()
      requires Valid() && cursor < |text|
      modifies this
      ensures Valid() && cursor == old(cursor) + 1 && Left() == old(Left())[1..]
    {
      cursor := cursor + 1;
    }

    /** Reads a string; its content is what the source has `JSON.parse` decode from the same characters. */
    method String() returns (content: Option<Text>)
      requires Valid()
      modifies this
      ensures Valid() && cursor >= old(cursor)
      ensures content.None? ==> AfterString(old(Left())) == None
      ensures content.Some? ==> AfterString(old(Left())) == Some(Token(content.value, Left())) && cursor > old(cursor)
    {
      if !At(0x22) {
        return None;
      }
      ghost var whole := AfterString(Left());
      Skip();
      var read: Text := [];
      PrefixedBefore([], 0, StringTail(Left()));
      while cursor < |text|
        invariant Valid() && cursor > old(cursor)
        invariant whole == Prefixed(read, StringTail(Left()))
      {
        var now := Left();
        var character := text[cursor];
        if character == 0x22 {
          Skip();
          assert read + [] == read;
          return Some(read);
        }
        if character < 0x20 {
          return None;
        }
        if character != 0x5C {
          PrefixedBefore(read, character, StringTail(now[1..]));
          read := read + [character];
          Skip();
          continue;
        }
        if cursor + 1 >= |text| {
          return None;
        }
        var escape := text[cursor + 1];
        assert now[1] == escape;
        if ShortEscape(escape).Some? {
          PrefixedBefore(read, ShortEscape(escape).value, StringTail(now[2..]));
          read := read + [ShortEscape(escape).value];
          cursor := cursor + 2;
          assert Left() == now[2..];
          continue;
        }
        if !LongEscape(text[cursor..]) {
          return None;
        }
        PrefixedBefore(read, LongEscapeUnit(now), StringTail(now[6..]));
        read := read + [LongEscapeUnit(text[cursor..])];
        cursor := cursor + 6;
        assert Left() == now[6..];
      }
      content := None;
    }

    method Scalar() returns (ok: bool)
      requires Valid()
      modifies this
      ensures Valid() && cursor >= old(cursor)
      ensures ok <==> AfterScalar(old(Left())).Some?
      ensures ok ==> AfterScalar(old(Left())) == Some(Left()) && cursor > old(cursor)
    {
      ScalarEnd(Left());
      hide AfterScalar;
      var rest := AfterScalar(text[cursor..]);
      if rest.None? {
        return false;
      }
      cursor := |text| - |rest.value|;
      ok := true;
    }

    /** Reads a value, or throws. */
    method Value(depth: nat) returns (ok: bool)
      requires Valid()
      modifies this
      ensures Valid() && cursor >= old(cursor)
      ensures ok <==> AfterValue(old(Left()), depth).Some?
      ensures ok ==> AfterValue(old(Left()), depth) == Some(Left()) && cursor > old(cursor)
      decreases |text| - cursor, 1
    {
      hide AfterFields, AfterItems, AfterScalar, AfterString, AfterSpace;
      Whitespace();
      if (At(0x7B) || At(0x5B)) && depth > MAX_NESTING {
        return false;
      }
      if At(0x7B) {
        Skip();
        Whitespace();
        if At(0x7D) {
          Skip();
          return true;
        }
        ok := Fields(depth);
        return;
      }
      if At(0x5B) {
        Skip();
        Whitespace();
        if At(0x5D) {
          Skip();
          return true;
        }
        ok := Items(depth);
        return;
      }
      if At(0x22) {
        var content := String();
        return content.Some?;
      }
      ok := Scalar();
    }

    /** The members of an object, and its closing brace. */
    method Fields(depth: nat) returns (ok: bool)
      requires Valid()
      modifies this
      ensures Valid() && cursor >= old(cursor)
      ensures ok <==> AfterFields(old(Left()), {}, depth).Some?
      ensures ok ==> AfterFields(old(Left()), {}, depth) == Some(Left()) && cursor > old(cursor)
      decreases |text| - cursor, 2
    {
      hide AfterValue, AfterString, AfterSpace;
      var fields: set<Text> := {};
      while true
        invariant Valid() && cursor >= old(cursor)
        invariant AfterFields(Left(), fields, depth) == AfterFields(old(Left()), {}, depth)
        decreases |text| - cursor
      {
        var name := String();
        if name.None? || name.value in fields {
          return false;
        }
        ghost var seen := fields;
        fields := fields + {name.value};
        Whitespace();
        if !At(0x3A) {
          return false;
        }
        Skip();
        ok := Value(depth + 1);
        if !ok {
          return;
        }
        Whitespace();
        if At(0x7D) {
          Skip();
          return true;
        }
        if !At(0x2C) {
          return false;
        }
        Skip();
        Whitespace();
      }
    }

    /** The items of an array, and its closing bracket. */
    method Items(depth: nat) returns (ok: bool)
      requires Valid()
      modifies this
      ensures Valid() && cursor >= old(cursor)
      ensures ok <==> AfterItems(old(Left()), depth).Some?
      ensures ok ==> AfterItems(old(Left()), depth) == Some(Left()) && cursor > old(cursor)
      decreases |text| - cursor, 2
    {
      hide AfterValue, AfterSpace;
      while true
        invariant Valid() && cursor >= old(cursor)
        invariant AfterItems(Left(), depth) == AfterItems(old(Left()), depth)
        decreases |text| - cursor
      {
        ok := Value(depth + 1);
        if !ok {
          return;
        }
        Whitespace();
        if At(0x5D) {
          Skip();
          return true;
        }
        if !At(0x2C) {
          return false;
        }
        Skip();
      }
    }
  }

  /** Does the text pass?  The source throws when it does not. */
  method AssertUnambiguousJSON(text: Text) returns (passes: bool)
    ensures passes <==> Accepts(text)
  {
    assert Accepts(text) <==>
      AfterValue(AfterSpace(text), 1).Some? && |AfterSpace(AfterValue(AfterSpace(text), 1).value)| == 0;
    hide AfterValue, AfterSpace, Accepts;
    var reader := new JSONCursor(text);
    reader.Whitespace();
    passes := reader.Value(1);
    if !passes {
      return;
    }
    reader.Whitespace();
    assert |reader.Left()| == |text| - reader.cursor;
    passes := reader.cursor == |text|;
  }
}
