/**
 * The printer itself: the diagnostic stream is the `out` field of a
 * `Printer`, and each overload of the C++ printer is a method that appends to
 * it piece by piece, with the same loops. Every method is proved to append
 * exactly the text `DebugFormat.Render` specifies and nothing else.
 *
 * The `ConcatAssoc` calls regroup what has been appended so far
 * (`(o + a) + b` is `o + (a + b)`); they carry no other meaning.
 */
module DebugPrinter {
  import opened TextUtil
  import opened DebugFormat

  class Printer {
    /** Everything written to the diagnostic stream so far. */
    var out: string

    constructor ()
      ensures out == []
    {
      out := [];
    }

    /** `DEBUG_STREAM << s` for a literal or a single character. */
    method Emit(s: string)
      modifies this
      ensures out == old(out) + s
    {
      out := out + s;
    }

    /** `print_impl`: picks the overload for the value's category. */
    method Print(v: Value)
      modifies this
      ensures out == old(out) + Render(v)
      decreases v, 2
    {
      match v
      case Bool(b) => PrintBool(b);
      case Char(c) => PrintChar(c);
      case SignedChar(b) => PrintSignedChar(b);
      case UnsignedChar(b) => PrintUnsignedChar(b);
      case Int(n) => PrintInt(n);
      case Str(s) => PrintStr(s);
      case Line(xs) => PrintLine(xs);
      case SetLike(xs) => PrintSet(xs);
      case MapLike(es) => PrintMap(es);
      case Pair(a, b) => PrintPair(a, b);
      case Tuple(h, t) => PrintTuple(h, t);
      case Adapter(c) => PrintAdapter(c);
      case BoolVec(bits) => PrintBoolVector(bits);
      case Array(h, t) => PrintArray(h, t);
    }

    method PrintBool(b: bool)
      modifies this
      ensures out == old(out) + Render(Bool(b))
    {
      if b {
        Emit("True");
      } else {
        Emit("False");
      }
    }

    method PrintChar(c: char)
      modifies this
      ensures out == old(out) + Render(Char(c))
    {
      if c == '\0' {
        Emit("'\\0'");
      } else if c == '\t' {
        Emit("'\\t'");
      } else if c == '\n' {
        Emit("'\\n'");
      } else if c == '\r' {
        Emit("'\\r'");
      } else if c == '\'' {
        Emit("'\\''");
      } else if c == '"' {
        Emit("'\\\"'");
      } else if c == '\\' {
        Emit("'\\\\'");
      } else {
        ghost var o := out;
        Emit("'");
        Emit([c]);
        Emit("'");
        ConcatAssoc(o, "'", [c]);
        ConcatAssoc(o, "'" + [c], "'");
      }
    }

    /** A signed char is widened to `short` and printed as an integer. */
    method PrintSignedChar(b: bv8)
      modifies this
      ensures out == old(out) + Render(SignedChar(b))
    {
      PrintInt(SignedValue(b));
    }

    /** An unsigned char is widened to `unsigned short` and printed as an integer. */
    method PrintUnsignedChar(b: bv8)
      modifies this
      ensures out == old(out) + Render(UnsignedChar(b))
    {
      PrintInt(b as int);
    }

    /** The fallback `DEBUG_STREAM << x`, which for an integer writes its decimal form. */
    method PrintInt(n: int)
      modifies this
      ensures out == old(out) + Render(Int(n))
    {
      Emit(Decimal(n));
    }

    method PrintStr(s: string)
      modifies this
      ensures out == old(out) + Render(Str(s))
    {
      ghost var o := out;
      Emit("\"");
      Emit(s);
      Emit("\"");
      ConcatAssoc(o, "\"", s);
      ConcatAssoc(o, "\"" + s, "\"");
    }

    /**
     * The element loop shared by line-like and set-like containers: the first
     * element, then a comma and each later one, until the end is reached.
     */
    method PrintItems(xs: seq<Value>)
      modifies this
      ensures out == old(out) + Items(xs)
      decreases xs, 0
    {
      ghost var o := out;
      if |xs| > 0 {
        Print(xs[0]);
        ghost var head := out;
        ghost var rest := xs[1..];
        var i := 1;
        while i < |xs|
          invariant 1 <= i <= |xs|
          invariant out == head + Tail(rest[..i - 1])
        {
          ghost var done := Tail(rest[..i - 1]);
          Emit(",");
          Print(xs[i]);
          TailSnoc(rest, i - 1);
          ConcatAssoc(head, done, ",");
          ConcatAssoc(head, done + ",", Render(xs[i]));
          i := i + 1;
        }
        assert rest[..i - 1] == rest;
        ConcatAssoc(o, Render(xs[0]), Tail(rest));
      }
    }

    method PrintLine(xs: seq<Value>)
      modifies this
      ensures out == old(out) + Render(Line(xs))
      decreases xs, 1
    {
      ghost var o := out;
      Emit("[");
      PrintItems(xs);
      Emit("]");
      ConcatAssoc(o, "[", Items(xs));
      ConcatAssoc(o, "[" + Items(xs), "]");
    }

    method PrintSet(xs: seq<Value>)
      modifies this
      ensures out == old(out) + Render(SetLike(xs))
      decreases xs, 1
    {
      ghost var o := out;
      Emit("{");
      PrintItems(xs);
      Emit("}");
      ConcatAssoc(o, "{", Items(xs));
      ConcatAssoc(o, "{" + Items(xs), "}");
    }

    /** A queue or priority_queue prints the container it wraps. */
    method PrintAdapter(c: Value)
      modifies this
      ensures out == old(out) + Render(Adapter(c))
      decreases Adapter(c), 0
    {
      Print(c);
    }

    /** Key, colon, value: one element of a map-like container. */
    method PrintEntry(e: Entry)
      modifies this
      ensures out == old(out) + EntryText(e)
      decreases e
    {
      ghost var o := out;
      Print(e.key);
      Emit(":");
      Print(e.val);
      ConcatAssoc(o, Render(e.key), ":");
      ConcatAssoc(o, Render(e.key) + ":", Render(e.val));
    }

    /** Like the element loop, with every element written as `key:value`. */
    method PrintMap(es: seq<Entry>)
      modifies this
      ensures out == old(out) + Render(MapLike(es))
      decreases es, 1
    {
      ghost var o := out;
      Emit("{");
      ghost var open := out;
      if |es| > 0 {
        PrintEntry(es[0]);
        ghost var head := out;
        ghost var rest := es[1..];
        var i := 1;
        while i < |es|
          invariant 1 <= i <= |es|
          invariant out == head + EntriesTail(rest[..i - 1])
        {
          ghost var done := EntriesTail(rest[..i - 1]);
          Emit(",");
          PrintEntry(es[i]);
          EntriesTailSnoc(rest, i - 1);
          ConcatAssoc(head, done, ",");
          ConcatAssoc(head, done + ",", EntryText(es[i]));
          i := i + 1;
        }
        assert rest[..i - 1] == rest;
        ConcatAssoc(open, EntryText(es[0]), EntriesTail(rest));
      }
      Emit("}");
      ConcatAssoc(o, "{", Entries(es));
      ConcatAssoc(o, "{" + Entries(es), "}");
    }

    method PrintPair(a: Value, b: Value)
      modifies this
      ensures out == old(out) + Render(Pair(a, b))
      decreases Pair(a, b), 0
    {
      ghost var o := out;
      Emit("<");
      Print(a);
      ConcatAssoc(o, "<", Render(a));
      Emit(",");
      ConcatAssoc(o, "<" + Render(a), ",");
      Print(b);
      ConcatAssoc(o, "<" + Render(a) + ",", Render(b));
      Emit(">");
      ConcatAssoc(o, "<" + Render(a) + "," + Render(b), ">");
    }

    /** The first element, then the fold over the remaining ones, each after a comma. */
    method PrintTuple(h: Value, t: seq<Value>)
      modifies this
      ensures out == old(out) + Render(Tuple(h, t))
      decreases Tuple(h, t), 0
    {
      ghost var o := out;
      Emit("<");
      Print(h);
      ghost var head := out;
      var i := 0;
      while i < |t|
        invariant 0 <= i <= |t|
        invariant out == head + Tail(t[..i])
      {
        ghost var done := Tail(t[..i]);
        Emit(",");
        Print(t[i]);
        TailSnoc(t, i);
        ConcatAssoc(head, done, ",");
        ConcatAssoc(head, done + ",", Render(t[i]));
        i := i + 1;
      }
      assert t[..i] == t;
      Emit(">");
      ConcatAssoc(o, "<", Render(h));
      ConcatAssoc(o, "<" + Render(h), Tail(t));
      ConcatAssoc(o, "<" + Render(h) + Tail(t), ">");
    }

    /** Each element converted to `int` and printed, with no delimiters. */
    method PrintBoolVector(bits: seq<bool>)
      modifies this
      ensures out == old(out) + Render(BoolVec(bits))
    {
      ghost var o := out;
      var i := 0;
      while i < |bits|
        invariant 0 <= i <= |bits|
        invariant out == o + Bits(bits[..i])
      {
        ghost var done := Bits(bits[..i]);
        PrintInt(if bits[i] then 1 else 0);
        assert bits[..i + 1][..i] == bits[..i];
        ConcatAssoc(o, done, if bits[i] then "1" else "0");
        i := i + 1;
      }
      assert bits[..i] == bits;
    }

    /** Element 0, then for every later index a comma and element 1, as the loop is written. */
    method PrintArray(h: Value, t: seq<Value>)
      modifies this
      ensures out == old(out) + Render(Array(h, t))
      decreases Array(h, t), 0
    {
      ghost var o := out;
      var n := 1 + |t|;
      Emit("[");
      Print(h);
      ghost var head := out;
      var i := 1;
      while i < n
        invariant 1 <= i <= n
        invariant out == head + (if t == [] then "" else Repeat("," + Render(t[0]), i - 1))
      {
        ghost var done := Repeat("," + Render(t[0]), i - 1);
        Emit(",");
        Print(t[0]);
        ConcatAssoc(head + done, ",", Render(t[0]));
        ConcatAssoc(head, done, "," + Render(t[0]));
        i := i + 1;
      }
      ghost var copies := if t == [] then "" else Repeat("," + Render(t[0]), |t|);
      Emit("]");
      ConcatAssoc(o, "[", Render(h));
      ConcatAssoc(o, "[" + Render(h), copies);
      ConcatAssoc(o, "[" + Render(h) + copies, "]");
    }

    /** `debug_single`: a space, then the value. */
    method DebugSingle(v: Value)
      modifies this
      ensures out == old(out) + " " + Render(v)
    {
      Emit(" ");
      Print(v);
    }

    /** `debug_impl`: each argument in turn, then the line end. */
    method DebugImpl(args: seq<Value>)
      modifies this
      ensures out == old(out) + DebugArgs(args)
      decreases args
    {
      ghost var o := out;
      if args == [] {
        Emit("\n");
      } else {
        DebugSingle(args[0]);
        DebugImpl(args[1..]);
        ConcatAssoc(o, " ", Render(args[0]));
        ConcatAssoc(o, " " + Render(args[0]), DebugArgs(args[1..]));
      }
    }

    /** The `debug(...)` macro, with the source text of its arguments given as `src`. */
    method Debug(src: string, args: seq<Value>)
      modifies this
      ensures out == old(out) + DebugLine(src, args)
    {
      ghost var o := out;
      Emit("[" + src + "] :");
      DebugImpl(args);
      ConcatAssoc(o, "[" + src + "] :", DebugArgs(args));
    }
  }
}
