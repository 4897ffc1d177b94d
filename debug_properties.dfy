/**
 * What the rendering rules promise, stated over `DebugFormat.Render` and
 * proved: the word for a bool, the character escape table and its inverse,
 * the delimiters and the comma-joined element lists, the shape of a `debug`
 * line, and the two places where the printer's output is not what its layout
 * suggests (an empty `std::vector<bool>` and the repeated element of a
 * `std::array`).
 */
module DebugProperties {
  import opened TextUtil
  import opened DebugFormat

  /** A bool is written as one of two words, never as a digit. */
  lemma BoolIsWord(b: bool)
    ensures Render(Bool(b)) == "True" || Render(Bool(b)) == "False"
    ensures Render(Bool(b)) == "True" <==> b
    ensures forall i :: 0 <= i < |Render(Bool(b))| ==> !IsDigit(Render(Bool(b))[i])
  {
  }

  /** A char is quote, backslash, escape letter, quote when it is in the table, and quote, itself, quote otherwise. */
  lemma CharLiteralTable(c: char)
    ensures c in EscapeTable ==> CharLiteral(c) == ['\'', '\\', EscapeTable[c], '\'']
    ensures c !in EscapeTable ==> CharLiteral(c) == ['\'', c, '\'']
    ensures |Render(Char(c))| == if c in EscapeTable then 4 else 3
  {
  }

  /** The escape table is one-to-one: every escape letter decodes to the character it came from. */
  lemma EscapeTableInvertible()
    ensures forall c :: c in EscapeTable ==> EscapeTable[c] in UnescapeTable && UnescapeTable[EscapeTable[c]] == c
    ensures forall e :: e in UnescapeTable ==> UnescapeTable[e] in EscapeTable && EscapeTable[UnescapeTable[e]] == e
  {
  }

  /** A char's literal reads back as that char, so distinct chars are written differently. */
  lemma CharLiteralRoundTrip(c: char)
    ensures ParseCharLiteral(Render(Char(c))) == Some(c)
  {
    CharLiteralTable(c);
    EscapeTableInvertible();
  }

  /** Every text that reads as a char literal is exactly what the printer writes for that char. */
  lemma CharLiteralParseSound(s: string, c: char)
    requires ParseCharLiteral(s) == Some(c)
    ensures Render(Char(c)) == s
  {
    CharLiteralTable(c);
    EscapeTableInvertible();
    if |s| == 4 {
      assert s == ['\'', '\\', s[2], '\''];
    } else {
      assert s == ['\'', s[1], '\''];
    }
  }

  /** A signed or unsigned char is written as the integer it holds, not as a character. */
  lemma SmallCharIsNumber(b: bv8)
    ensures ParseDecimal(Render(SignedChar(b))) == Some(SignedValue(b))
    ensures ParseDecimal(Render(UnsignedChar(b))) == Some(b as int)
    ensures ParseCharLiteral(Render(SignedChar(b))) == None
    ensures ParseCharLiteral(Render(UnsignedChar(b))) == None
  {
    DecimalRoundTrip(SignedValue(b));
    DecimalRoundTrip(b as int);
    DecimalEndsInDigit(SignedValue(b));
    DecimalEndsInDigit(b as int);
  }

  /** Any integer is written in decimal and reads back as itself. */
  lemma IntIsDecimal(n: int)
    ensures ParseDecimal(Render(Int(n))) == Some(n)
  {
    DecimalRoundTrip(n);
  }

  /** A string-like value is its characters between double quotes, with nothing escaped. */
  lemma StrIsQuotedVerbatim(s: string)
    ensures |Render(Str(s))| == |s| + 2
    ensures Render(Str(s))[0] == '"' && Render(Str(s))[|s| + 1] == '"'
    ensures Render(Str(s))[1..|s| + 1] == s
  {
  }

  /** The comma-prefixed elements are the element renderings joined by commas, behind one more comma. */
  lemma {:induction false} TailIsJoin(xs: seq<Value>)
    requires xs != []
    ensures Tail(xs) == "," + JoinWith(Renders(xs), ",")
  {
    var n := |xs|;
    if n == 1 {
      assert xs[..0] == [];
    } else {
      var init := xs[..n - 1];
      var last := Render(xs[n - 1]);
      TailIsJoin(init);
      assert Renders(xs) == Renders(init) + [last];
      JoinWithSnoc(Renders(init), last, ",");
      var j := JoinWith(Renders(init), ",");
      assert Tail(xs) == ("," + j) + "," + last;
      ConcatAssoc(",", j, ",");
      ConcatAssoc(",", j + ",", last);
    }
  }

  /** The elements of a container are their renderings joined by commas: no leading or trailing comma. */
  lemma ItemsIsJoin(xs: seq<Value>)
    ensures Items(xs) == JoinWith(Renders(xs), ",")
  {
    if xs != [] {
      var rest := xs[1..];
      if rest != [] {
        TailIsJoin(rest);
        assert Renders(xs) == [Render(xs[0])] + Renders(rest);
        assert Renders(xs)[1..] == Renders(rest);
      }
    }
  }

  /** A vector, deque or list is `[`, the element renderings joined by commas, `]`; empty gives `[]`. */
  lemma LineShape(xs: seq<Value>)
    ensures Render(Line(xs)) == "[" + JoinWith(Renders(xs), ",") + "]"
    ensures xs == [] ==> Render(Line(xs)) == "[]"
    ensures xs != [] ==> |Render(Line(xs))| == 2 + TotalLength(Renders(xs)) + (|xs| - 1)
  {
    ItemsIsJoin(xs);
    if xs != [] {
      JoinWithLength(Renders(xs), ",");
    }
  }

  /** A set-like container is `{`, the element renderings joined by commas, `}`; empty gives `{}`. */
  lemma SetShape(xs: seq<Value>)
    ensures Render(SetLike(xs)) == "{" + JoinWith(Renders(xs), ",") + "}"
    ensures xs == [] ==> Render(SetLike(xs)) == "{}"
    ensures xs != [] ==> |Render(SetLike(xs))| == 2 + TotalLength(Renders(xs)) + (|xs| - 1)
  {
    ItemsIsJoin(xs);
    if xs != [] {
      JoinWithLength(Renders(xs), ",");
    }
  }

  /** The comma-prefixed entries are the `key:value` texts joined by commas, behind one more comma. */
  lemma {:induction false} EntriesTailIsJoin(es: seq<Entry>)
    requires es != []
    ensures EntriesTail(es) == "," + JoinWith(EntryTexts(es), ",")
  {
    var n := |es|;
    if n == 1 {
      assert es[..0] == [];
    } else {
      var init := es[..n - 1];
      var last := EntryText(es[n - 1]);
      EntriesTailIsJoin(init);
      assert EntryTexts(es) == EntryTexts(init) + [last] by {
        var parts := EntryTexts(init) + [last];
        forall i | 0 <= i < n ensures EntryTexts(es)[i] == parts[i] {
          if i < n - 1 {
            assert init[i] == es[i];
          }
        }
      }
      JoinWithSnoc(EntryTexts(init), last, ",");
      var j := JoinWith(EntryTexts(init), ",");
      assert EntriesTail(es) == ("," + j) + "," + last;
      ConcatAssoc(",", j, ",");
      ConcatAssoc(",", j + ",", last);
    }
  }

  /** A map-like container is `{k1:v1,k2:v2,...}` in iteration order; empty gives `{}`. */
  lemma MapShape(es: seq<Entry>)
    ensures Render(MapLike(es)) == "{" + JoinWith(EntryTexts(es), ",") + "}"
    ensures es == [] ==> Render(MapLike(es)) == "{}"
  {
    if es != [] {
      var rest := es[1..];
      assert Entries(es) == EntryText(es[0]) + EntriesTail(rest);
      assert EntryTexts(es)[0] == EntryText(es[0]);
      if rest != [] {
        EntriesTailIsJoin(rest);
        assert EntryTexts(es)[1..] == EntryTexts(rest);
      }
    }
  }

  /** A pair is written exactly as the two-element tuple of its members. */
  lemma PairShape(a: Value, b: Value)
    ensures Render(Pair(a, b)) == "<" + Render(a) + "," + Render(b) + ">"
    ensures Render(Pair(a, b)) == Render(Tuple(a, [b]))
  {
    assert [b][..0] == [];
    assert Tail([b]) == Tail([]) + "," + Render(b);
  }

  /** A tuple of k >= 1 elements is `<`, the k renderings joined by commas, `>`. */
  lemma TupleShape(h: Value, t: seq<Value>)
    ensures Render(Tuple(h, t)) == "<" + JoinWith(Renders([h] + t), ",") + ">"
  {
    ItemsIsJoin([h] + t);
    assert ([h] + t)[1..] == t;
  }

  /**
   * A queue or priority_queue is written exactly as the container it holds:
   * over a deque, list or vector as the bracketed list in storage order, and
   * over a `std::vector<bool>` as bare digits, with no brackets.
   */
  lemma AdapterAsContainer(c: Value)
    ensures Render(Adapter(c)) == Render(c)
    ensures c.Line? ==> Render(Adapter(c)) == "[" + JoinWith(Renders(c.elems), ",") + "]"
    ensures c.BoolVec? ==> |Render(Adapter(c))| == |c.bits|
    ensures c.BoolVec? ==> forall i :: 0 <= i < |c.bits| ==>
      Render(Adapter(c))[i] == if c.bits[i] then '1' else '0'
  {
    if c.Line? {
      ItemsIsJoin(c.elems);
    } else if c.BoolVec? {
      BitsShape(c.bits);
    }
  }

  /** A `std::vector<bool>` is one digit per element, `1` for true and `0` for false, and nothing else. */
  lemma {:induction false} BitsShape(bits: seq<bool>)
    ensures |Render(BoolVec(bits))| == |bits|
    ensures forall i :: 0 <= i < |bits| ==> Render(BoolVec(bits))[i] == if bits[i] then '1' else '0'
  {
    if bits != [] {
      BitsShape(bits[..|bits| - 1]);
    }
  }

  /** `n` copies of one value. */
  function Copies(x: Value, n: nat): seq<Value> {
    seq(n, _ => x)
  }

  lemma {:induction false} TailOfCopies(x: Value, n: nat)
    ensures Tail(Copies(x, n)) == Repeat("," + Render(x), n)
  {
    if n > 0 {
      assert Copies(x, n)[..n - 1] == Copies(x, n - 1);
      TailOfCopies(x, n - 1);
    }
  }

  /**
   * A `std::array` of N elements is written as the N-element list holding its
   * first element and then N - 1 copies of its SECOND element: every index
   * after 0 prints `x[1]`.
   */
  lemma ArrayRepeatsSecond(h: Value, t: seq<Value>)
    ensures t == [] ==> Render(Array(h, t)) == Render(Line([h]))
    ensures t != [] ==> Render(Array(h, t)) == Render(Line([h] + Copies(t[0], |t|)))
  {
    if t == [] {
      assert [h][1..] == [];
      assert Items([h]) == Render(h) + Tail([]);
      assert Render(Array(h, t)) == "[" + Render(h) + "" + "]";
    } else {
      var xs := [h] + Copies(t[0], |t|);
      assert xs[1..] == Copies(t[0], |t|);
      TailOfCopies(t[0], |t|);
      assert Items(xs) == Render(h) + Tail(Copies(t[0], |t|));
    }
  }

  /** So an array prints like the list of its elements when its later elements agree. */
  lemma ArrayFaithfulWhenUniform(h: Value, t: seq<Value>)
    requires forall i :: 0 <= i < |t| ==> t[i] == t[0]
    ensures Render(Array(h, t)) == Render(Line([h] + t))
  {
    ArrayRepeatsSecond(h, t);
    if t != [] {
      assert t == Copies(t[0], |t|);
    } else {
      assert [h] + t == [h];
    }
  }

  /** The array `{1, 2, 3}` is written `[1,2,2]`. */
  lemma ArrayExample()
    ensures Render(Array(Int(1), [Int(2), Int(3)])) == "[1,2,2]"
  {
    var t := [Int(2), Int(3)];
    assert Render(Int(1)) == "1" && Render(t[0]) == "2";
    assert Repeat(",2", 2) == Repeat(",2", 1) + ",2" == ",2,2";
    assert "," + Render(t[0]) == ",2" && |t| == 2;
    assert Render(Array(Int(1), t)) == "[" + Render(Int(1)) + Repeat("," + Render(t[0]), |t|) + "]";
  }

  /** Only an empty `std::vector<bool>`, or an adapter holding one, writes nothing at all. */
  lemma RenderEmptyIff(v: Value)
    ensures Render(v) == [] <==> Unwrapped(v) == BoolVec([])
  {
    match v
    case SignedChar(b) => DecimalEndsInDigit(SignedValue(b));
    case UnsignedChar(b) => DecimalEndsInDigit(b as int);
    case Int(n) => DecimalEndsInDigit(n);
    case BoolVec(bits) => BitsShape(bits);
    case Adapter(c) => RenderEmptyIff(c);
    case _ =>
  }

  /** No rendering ends in a comma. */
  lemma RenderNotEndingInComma(v: Value)
    requires Render(v) != []
    ensures Render(v)[|Render(v)| - 1] != ','
  {
    match v
    case SignedChar(b) => DecimalEndsInDigit(SignedValue(b));
    case UnsignedChar(b) => DecimalEndsInDigit(b as int);
    case Int(n) => DecimalEndsInDigit(n);
    case BoolVec(bits) => BitsShape(bits);
    case Char(c) => CharLiteralTable(c);
    case Line(xs) => assert Render(v) == ("[" + Items(xs)) + "]";
    case SetLike(xs) => assert Render(v) == ("{" + Items(xs)) + "}";
    case MapLike(es) => assert Render(v) == ("{" + Entries(es)) + "}";
    case Pair(a, b) => assert Render(v) == ("<" + Render(a) + "," + Render(b)) + ">";
    case Tuple(h, t) => assert Render(v) == ("<" + Render(h) + Tail(t)) + ">";
    case Adapter(c) => RenderNotEndingInComma(c);
    case _ =>
  }

  /**
   * No trailing comma: in a non-empty vector, deque or list the character
   * before `]` is not a comma, unless there are at least two elements and the
   * last one is an empty `std::vector<bool>` (or an adapter holding one), which
   * writes nothing after the last separator.
   */
  lemma LineNoTrailingComma(xs: seq<Value>)
    requires xs != []
    ensures var r := Render(Line(xs));
      r[|r| - 2] == ',' <==> |xs| >= 2 && Unwrapped(xs[|xs| - 1]) == BoolVec([])
  {
    var n := |xs|;
    var last := xs[n - 1];
    var r := Render(Line(xs));
    RenderEmptyIff(last);
    assert Items(xs) == Render(xs[0]) + Tail(xs[1..]);
    if n == 1 {
      assert r == "[" + Render(last) + "]";
      if Render(last) != [] {
        RenderNotEndingInComma(last);
      }
    } else {
      assert xs[1..][..n - 2] == xs[1..n - 1];
      assert Tail(xs[1..]) == Tail(xs[1..n - 1]) + "," + Render(last);
      assert r == "[" + Render(xs[0]) + Tail(xs[1..n - 1]) + "," + Render(last) + "]";
      if Render(last) != [] {
        RenderNotEndingInComma(last);
      }
    }
  }

  /** The arguments part of a `debug` line: each argument after one space, then a newline. */
  lemma {:induction false} DebugArgsShape(args: seq<Value>)
    ensures DebugArgs(args) == (if args == [] then "" else " " + JoinWith(Renders(args), " ")) + "\n"
  {
    if args != [] {
      var rest := args[1..];
      var first := Render(args[0]);
      DebugArgsShape(rest);
      assert Renders(args) == [first] + Renders(rest);
      assert Renders(args)[1..] == Renders(rest);
      if rest != [] {
        var j := JoinWith(Renders(rest), " ");
        assert JoinWith(Renders(args), " ") == first + " " + j;
        assert DebugArgs(args) == " " + first + ((" " + j) + "\n");
        ConcatAssoc(" " + first, " " + j, "\n");
        ConcatAssoc(" " + first, " ", j);
        ConcatAssoc(" ", first + " ", j);
        ConcatAssoc(" ", first, " ");
      }
    }
  }

  /** `debug(e1, ..., ek)` writes `[`, the source text, `] :`, each rendering after a single space, and one newline. */
  lemma DebugLineShape(src: string, args: seq<Value>)
    ensures DebugLine(src, args) ==
      "[" + src + "] :" + (if args == [] then "" else " " + JoinWith(Renders(args), " ")) + "\n"
    ensures |DebugLine(src, args)| >= |src| + 5
    ensures DebugLine(src, args)[|DebugLine(src, args)| - 1] == '\n'
  {
    DebugArgsShape(args);
  }

  /** Concrete renderings: a pair, an empty vector, an unescaped string, a signed char, a char, a bool and a priority queue of bools. */
  lemma Examples()
    ensures Render(Pair(Int(3), Int(4))) == "<3,4>"
    ensures Render(Line([])) == "[]"
    ensures Render(Str("a\"b")) == "\"a\"b\""
    ensures Render(SignedChar(120)) == "120"
    ensures Render(Char('x')) == "'x'"
    ensures Render(Bool(false)) == "False"
    ensures Render(Adapter(BoolVec([true, false]))) == "10"
  {
    var bits := [true, false];
    assert bits[..1] == [true] && [true][..0] == [];
    assert Bits(bits) == Bits([true]) + "0" == "1" + "0";
  }
}
