/** Woodhouse::Util: argument checks and a small camel-casing helper. */
module WoodhouseUtil {
  import opened Wrappers
  import opened RubyClasses
  import opened AsciiText

  /** A Ruby value, seen only through its class: `nil` or an instance. */
  datatype RObject = Nil | Instance(cls: RClass)

  /** A value the modelled code can be handed: `nil`, the only instance of
      NilClass, or an instance of a class below Object, which answers
      `nil?`, `class` and `kind_of?`. */
  type RValue = v: RObject | v.Nil? || (v.cls != NilClass && IsA(v.cls, Object)) witness Nil

  /** `value.class` */
  function ClassOf(v: RValue): RClass
  {
    match v
    case Nil => NilClass
    case Instance(c) => c
  }

  /** `value.kind_of?(klass)` */
  predicate KindOf(v: RValue, klass: RClass)
  {
    IsA(ClassOf(v), klass)
  }

  /** `expect_arg(name, klass, value)`: the error it raises, or None when it
      returns without effect. */
  function ExpectArg(name: string, klass: RClass, value: RValue): (raised: Option<RubyError>)
    ensures raised.None? <==> KindOf(value, klass)
    ensures raised.Some? ==> raised.value.cls == ArgumentError
    ensures raised.Some? ==>
      raised.value.message == "expected " + name + " to be a " + Name(klass) + ", got " + Name(ClassOf(value))
  {
    if KindOf(value, klass) then None
    else Some(RubyError(ArgumentError,
      "expected " + name + " to be a " + Name(klass) + ", got " + Name(ClassOf(value))))
  }

  /** `expect_arg_or_nil(name, klass, value)` */
  function ExpectArgOrNil(name: string, klass: RClass, value: RValue): (raised: Option<RubyError>)
    ensures value.Nil? ==> raised.None?
    ensures !value.Nil? ==> raised == ExpectArg(name, klass, value)
  {
    if value.Nil? then None else ExpectArg(name, klass, value)
  }

  /** What `expect_arg_or_nil` accepts: nil, or exactly what `expect_arg` accepts. */
  lemma ExpectArgOrNilAccepts(name: string, klass: RClass, value: RValue)
    ensures ExpectArgOrNil(name, klass, value).None? <==> value.Nil? || KindOf(value, klass)
  {
  }

  /** The check is by subclass: an instance of any subclass of `klass` passes. */
  lemma ExpectArgAcceptsSubclasses(name: string, klass: RClass, value: RValue, sub: RClass)
    requires ClassOf(value) == sub && IsA(sub, klass)
    ensures ExpectArg(name, klass, value).None?
  {
  }

  /** The check raises an ArgumentError, a StandardError. */
  lemma ExpectArgRaisesStandardError(name: string, klass: RClass, value: RValue)
    requires ExpectArg(name, klass, value).Some?
    ensures Rescuable(ExpectArg(name, klass, value).value.cls)
  {
  }

  // ---------------------------------------------------------------------
  // camelize

  /** Number of underscores in `s`. */
  function Underscores(s: string): nat
  {
    if s == [] then 0 else (if s[0] == '_' then 1 else 0) + Underscores(s[1..])
  }

  /** The pieces between underscores, empty ones included: what
      `String#split` finds before it drops trailing empty strings. */
  function Pieces(s: string): (ps: seq<string>)
    ensures |ps| == Underscores(s) + 1
    ensures forall i :: 0 <= i < |ps| ==> '_' !in ps[i]
  {
    if s == [] then [""]
    else if s[0] == '_' then [""] + Pieces(s[1..])
    else
      var rest := Pieces(s[1..]);
      [[s[0]] + rest[0]] + rest[1..]
  }

  /** `pieces.join('_')` */
  function JoinUnderscore(ps: seq<string>): string
  {
    if ps == [] then "" else if |ps| == 1 then ps[0] else ps[0] + "_" + JoinUnderscore(ps[1..])
  }

  /** Splitting at underscores loses nothing: joining the pieces back gives the input. */
  lemma {:induction false} JoinPieces(s: string)
    ensures JoinUnderscore(Pieces(s)) == s
  {
    if s != [] {
      JoinPieces(s[1..]);
      var rest := Pieces(s[1..]);
      if s[0] == '_' {
        assert s == "_" + s[1..];
      } else if |rest| == 1 {
        assert Pieces(s) == [[s[0]] + rest[0]];
      } else {
        assert JoinUnderscore(rest) == rest[0] + "_" + JoinUnderscore(rest[1..]);
        assert s == [s[0]] + s[1..];
      }
    }
  }

  /** Ruby drops trailing empty strings from the result of `split`. */
  function DropTrailingEmpty(ps: seq<string>): (r: seq<string>)
    ensures |r| <= |ps| && r == ps[..|r|]
    ensures forall i :: |r| <= i < |ps| ==> ps[i] == ""
    ensures r == [] || r[|r| - 1] != ""
  {
    if ps != [] && ps[|ps| - 1] == "" then DropTrailingEmpty(ps[..|ps| - 1]) else ps
  }

  /** `string.split(/_/)` */
  function Split(s: string): (ws: seq<string>)
    ensures forall i :: 0 <= i < |ws| ==> '_' !in ws[i]
    ensures |ws| <= Underscores(s) + 1
    ensures ws == [] || ws[|ws| - 1] != ""
  {
    DropTrailingEmpty(Pieces(s))
  }

  /** `word.capitalize`: first character upcased, the rest downcased. */
  function Capitalize(w: string): (r: string)
    ensures |r| == |w|
    ensures r != [] ==> !IsLower(r[0])
  {
    if w == [] then [] else [UpChar(w[0])] + Down(w[1..])
  }

  /** `words.map { |word| word.capitalize }.join('')` */
  function JoinCapitalized(ws: seq<string>): string
  {
    if ws == [] then "" else Capitalize(ws[0]) + JoinCapitalized(ws[1..])
  }

  /** `camelize(string)`: equal to the character-by-character reading. */
  function Camelize(s: string): (r: string)
    ensures r == CamelCase(s, true)
  {
    SplitCapitalizedIsCamelCase(s);
    JoinCapitalized(Split(s))
  }

  /** A character-by-character reading of camelize, independent of split:
      underscores vanish, a character that starts a word (first, or right
      after an underscore) is upcased and every other one is downcased.
      `atStart` says whether `s` begins a word. */
  function CamelCase(s: string, atStart: bool): (r: string)
    ensures |r| == |s| - Underscores(s)
    ensures '_' !in r
  {
    if s == [] then []
    else if s[0] == '_' then CamelCase(s[1..], true)
    else [if atStart then UpChar(s[0]) else DownChar(s[0])] + CamelCase(s[1..], false)
  }

  lemma {:induction false} JoinCapitalizedAppend(a: seq<string>, b: seq<string>)
    ensures JoinCapitalized(a + b) == JoinCapitalized(a) + JoinCapitalized(b)
  {
    if a != [] {
      var ab := a + b;
      assert ab[0] == a[0] && ab[1..] == a[1..] + b;
      JoinCapitalizedAppend(a[1..], b);
      calc {
        JoinCapitalized(ab);
        Capitalize(a[0]) + JoinCapitalized(a[1..] + b);
        Capitalize(a[0]) + (JoinCapitalized(a[1..]) + JoinCapitalized(b));
      }
    } else {
      assert a + b == b;
    }
  }

  /** Empty pieces contribute nothing, so dropping the trailing ones does not
      change the output. */
  lemma {:induction false} JoinCapitalizedDropTrailing(ps: seq<string>)
    ensures JoinCapitalized(DropTrailingEmpty(ps)) == JoinCapitalized(ps)
    decreases |ps|
  {
    if ps != [] && ps[|ps| - 1] == "" {
      var front := ps[..|ps| - 1];
      assert DropTrailingEmpty(ps) == DropTrailingEmpty(front);
      JoinCapitalizedDropTrailing(front);
      assert ps == front + [""];
      JoinCapitalizedAppend(front, [""]);
      assert JoinCapitalized([""]) == "";
    }
  }

  /** The character-by-character reading, for the word being read
      (`atStart` false) and for the pieces as a whole. */
  predicate CamelCaseMatchesPieces(s: string)
  {
    CamelCase(s, true) == JoinCapitalized(Pieces(s)) &&
    CamelCase(s, false) == Down(Pieces(s)[0]) + JoinCapitalized(Pieces(s)[1..])
  }

  lemma {:induction false} CamelCasePieces(s: string)
    ensures CamelCaseMatchesPieces(s)
  {
    if s == [] {
    } else {
      CamelCasePieces(s[1..]);
      if s[0] == '_' {
        CamelCasePiecesUnderscore(s);
      } else {
        CamelCasePiecesLetter(s);
      }
    }
  }

  lemma CamelCasePiecesUnderscore(s: string)
    requires s != [] && s[0] == '_'
    requires CamelCaseMatchesPieces(s[1..])
    ensures CamelCaseMatchesPieces(s)
  {
    var ps := Pieces(s);
    assert ps == [""] + Pieces(s[1..]);
    assert ps[0] == "" && ps[1..] == Pieces(s[1..]);
    assert JoinCapitalized(ps) == Capitalize("") + JoinCapitalized(ps[1..]);
  }

  lemma CamelCasePiecesLetter(s: string)
    requires s != [] && s[0] != '_'
    requires CamelCaseMatchesPieces(s[1..])
    ensures CamelCaseMatchesPieces(s)
  {
    var rest := Pieces(s[1..]);
    var tail := Down(rest[0]) + JoinCapitalized(rest[1..]);
    assert CamelCase(s[1..], false) == tail;
    PiecesLetter(s);
    WordStart(s[0], rest[0], rest[1..]);
    WordInside(s[0], rest[0], rest[1..]);
    assert CamelCase(s, true) == [UpChar(s[0])] + tail;
    assert CamelCase(s, false) == [DownChar(s[0])] + tail;
  }

  /** Unfolds Pieces once at a letter. */
  lemma PiecesLetter(s: string)
    requires s != [] && s[0] != '_'
    ensures Pieces(s)[0] == [s[0]] + Pieces(s[1..])[0]
    ensures Pieces(s)[1..] == Pieces(s[1..])[1..]
  {
  }

  lemma WordStart(c: char, t: string, rest: seq<string>)
    ensures JoinCapitalized([[c] + t] + rest) == [UpChar(c)] + (Down(t) + JoinCapitalized(rest))
  {
    var w := [c] + t;
    assert ([w] + rest)[0] == w && ([w] + rest)[1..] == rest;
    assert w[0] == c && w[1..] == t;
    Associative([UpChar(c)], Down(t), JoinCapitalized(rest));
  }

  lemma WordInside(c: char, t: string, rest: seq<string>)
    ensures Down([c] + t) + JoinCapitalized(rest) == [DownChar(c)] + (Down(t) + JoinCapitalized(rest))
  {
    DownCons(c, t);
    Associative([DownChar(c)], Down(t), JoinCapitalized(rest));
  }

  lemma Associative(a: string, b: string, c: string)
    ensures a + b + c == a + (b + c)
  {
  }

  lemma DownCons(c: char, t: string)
    ensures Down([c] + t) == [DownChar(c)] + Down(t)
  {
    assert ([c] + t)[1..] == t;
  }

  /** split/capitalize/join agrees with the character-by-character reading. */
  lemma SplitCapitalizedIsCamelCase(s: string)
    ensures JoinCapitalized(Split(s)) == CamelCase(s, true)
  {
    CamelCasePieces(s);
    assert CamelCase(s, true) == JoinCapitalized(Pieces(s));
    JoinCapitalizedDropTrailing(Pieces(s));
  }

  /** The output has no underscore, and its length is the input's length less
      its underscores: leading, doubled and trailing underscores yield empty
      pieces that contribute nothing. */
  lemma CamelizeShape(s: string)
    ensures '_' !in Camelize(s)
    ensures |Camelize(s)| == |s| - Underscores(s)
  {
  }

  /** A single word is capitalised. */
  lemma CamelizeWord(w: string)
    requires '_' !in w
    ensures Camelize(w) == Capitalize(w)
  {
    CamelCasePieces(w);
    assert CamelCase(w, true) == JoinCapitalized(Pieces(w));
    assert Pieces(w) == [w] by {
      assert |Pieces(w)| == Underscores(w) + 1;
      UnderscoresZero(w);
      JoinPieces(w);
    }
  }

  lemma {:induction false} UnderscoresZero(s: string)
    requires '_' !in s
    ensures Underscores(s) == 0
  {
    if s != [] {
      UnderscoresZero(s[1..]);
    }
  }

  /** Words are camelized independently and concatenated. */
  lemma CamelizeUnderscore(a: string, b: string)
    ensures Camelize(a + "_" + b) == Camelize(a) + Camelize(b)
  {
    var tail := "_" + b;
    assert a + "_" + b == a + tail;
    assert tail[0] == '_' && tail[1..] == b;
    assert CamelCase(tail, true) == CamelCase(b, true);
    CamelCaseAppend(a, tail, true);
  }

  lemma {:induction false} CamelCaseAppend(a: string, b: string, atStart: bool)
    requires b != [] && b[0] == '_'
    ensures CamelCase(a + b, atStart) == CamelCase(a, atStart) + CamelCase(b, atStart)
  {
    if a != [] {
      assert (a + b)[1..] == a[1..] + b;
      CamelCaseAppend(a[1..], b, if a[0] == '_' then true else false);
    } else {
      assert a + b == b;
    }
  }

  /** Two words joined by an underscore are each capitalised. */
  lemma CamelizeTwoWords(a: string, b: string)
    requires '_' !in a && '_' !in b
    ensures Camelize(a + "_" + b) == Capitalize(a) + Capitalize(b)
  {
    CamelizeUnderscore(a, b);
    CamelizeWord(a);
    CamelizeWord(b);
  }

  /** foo_bar gives FooBar ... */
  lemma CamelizeSnakeCase()
    ensures Camelize("foo_bar") == "FooBar"
  {
    CamelizeWords("foo", "bar", "foo_bar");
    CapitalizeFooBar();
  }

  lemma CapitalizeFooBar()
    ensures Capitalize("foo") + Capitalize("bar") == "FooBar"
  {
    assert Capitalize("foo") == "Foo";
    assert Capitalize("bar") == "Bar";
  }

  lemma CapitalizeShoutingFooBar()
    ensures Capitalize("FOO") + Capitalize("BAR") == "FooBar"
  {
    assert Capitalize("FOO") == "Foo";
    assert Capitalize("BAR") == "Bar";
  }

  /** CamelizeTwoWords on a joined name given whole. */
  lemma CamelizeWords(a: string, b: string, name: string)
    requires '_' !in a && '_' !in b && name == a + "_" + b
    ensures Camelize(name) == Capitalize(a) + Capitalize(b)
  {
    CamelizeTwoWords(a, b);
  }

  /** ... and so does FOO_BAR. */
  lemma CamelizeShoutingSnakeCase()
    ensures Camelize("FOO_BAR") == "FooBar"
  {
    CamelizeWords("FOO", "BAR", "FOO_BAR");
    CapitalizeShoutingFooBar();
  }

  /** A word with a capital after its first letter comes back changed. */
  lemma CamelizeChangesInnerCapitals(w: string, i: nat)
    requires '_' !in w && 1 <= i < |w| && IsUpper(w[i])
    ensures Camelize(w) != w
  {
    CamelizeWord(w);
    DownAt(w[1..], i - 1);
    assert Camelize(w)[i] == DownChar(w[i]);
  }

  /** camelize is not idempotent: its own output "FooBar" becomes "Foobar". */
  lemma CamelizeNotIdempotent()
    ensures Camelize("foo_bar") == "FooBar"
    ensures Camelize("FooBar") == "Foobar"
    ensures Camelize(Camelize("foo_bar")) != Camelize("foo_bar")
  {
    CamelizeSnakeCase();
    CamelizeFooBarWord();
  }

  lemma CamelizeFooBarWord()
    ensures Camelize("FooBar") == "Foobar"
  {
    CamelizeWord("FooBar");
    CapitalizeCamelCaseWord();
  }

  lemma CapitalizeCamelCaseWord()
    ensures Capitalize("FooBar") == "Foobar"
  {
  }

  /** The empty name gives the empty name. */
  lemma CamelizeEmpty()
    ensures Camelize("") == ""
  {
  }

  /** Empty pieces contribute nothing: underscores at either end leave no
      trace. */
  lemma CamelizeStrayUnderscores(s: string)
    ensures Camelize("_" + s) == Camelize(s)
    ensures Camelize(s + "_") == Camelize(s)
  {
    CamelizeUnderscore("", s);
    assert "" + "_" + s == "_" + s;
    CamelizeUnderscore(s, "");
    assert s + "_" + "" == s + "_";
  }

}
