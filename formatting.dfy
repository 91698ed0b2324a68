/**
 * `String.format` restricted to what the validator's message templates use:
 * the `%s` conversion applied to strings.
 */
module Formatting {
  import opened Wrappers

  /** True when `c` does not occur in `s`. */
  predicate Free(s: string, c: char) {
    c !in s
  }

  /**
   * Fills the `%s` slots of `template` with `args`, left to right. Text
   * without '%' is copied. A `%s` with no argument left, or any other use
   * of '%', is a format error (None); surplus arguments are ignored.
   */
  function Format(template: string, args: seq<string>): Option<string>
    decreases |template|
  {
    if template == [] then Some([])
    else if template[0] != '%' then
      match Format(template[1..], args)
      case Some(s) => Some([template[0]] + s)
      case None => None
    else if |template| >= 2 && template[1] == 's' && args != [] then
      match Format(template[2..], args[1..])
      case Some(s) => Some(args[0] + s)
      case None => None
    else None
  }

  /** Text without '%' in front of the rest of a template is copied verbatim. */
  lemma {:induction false} FormatLiteralPrefix(lit: string, rest: string, args: seq<string>)
    requires Free(lit, '%')
    ensures Format(lit + rest, args) ==
      match Format(rest, args)
      case Some(s) => Some(lit + s)
      case None => None
    decreases |lit|
  {
    if lit == [] {
      assert lit + rest == rest;
      match Format(rest, args)
      case Some(s) =>
        assert lit + s == s;
      case None =>
    } else {
      assert (lit + rest)[1..] == lit[1..] + rest;
      FormatLiteralPrefix(lit[1..], rest, args);
      match Format(rest, args)
      case Some(s) =>
        assert [lit[0]] + (lit[1..] + s) == lit + s;
      case None =>
    }
  }

  /** A `%s` at the front of a template takes the first argument. */
  lemma FormatSlot(rest: string, args: seq<string>)
    requires args != []
    ensures Format("%s" + rest, args) ==
      match Format(rest, args[1..])
      case Some(s) => Some(args[0] + s)
      case None => None
  {
    assert ("%s" + rest)[2..] == rest;
  }

  /** A template without '%' formats to itself. */
  lemma FormatLiteral(lit: string, args: seq<string>)
    requires Free(lit, '%')
    ensures Format(lit, args) == Some(lit)
  {
    FormatLiteralPrefix(lit, [], args);
    assert lit + [] == lit;
  }

  /** A template with one slot between two literal parts. */
  lemma FormatOneSlot(p1: string, p2: string, a: string)
    requires Free(p1, '%') && Free(p2, '%')
    ensures Format(p1 + "%s" + p2, [a]) == Some(p1 + a + p2)
  {
    FormatLiteral(p2, []);
    assert [a][1..] == [];
    FormatSlot(p2, [a]);
    FormatLiteralPrefix(p1, "%s" + p2, [a]);
    assert p1 + "%s" + p2 == p1 + ("%s" + p2);
    assert p1 + (a + p2) == p1 + a + p2;
  }

  /** A template with two slots between three literal parts. */
  lemma FormatTwoSlots(p1: string, p2: string, p3: string, a: string, b: string)
    requires Free(p1, '%') && Free(p2, '%') && Free(p3, '%')
    ensures Format(p1 + "%s" + p2 + "%s" + p3, [a, b]) == Some(p1 + a + p2 + b + p3)
  {
    FormatOneSlot(p2, p3, b);
    assert [a, b][1..] == [b];
    FormatSlot(p2 + "%s" + p3, [a, b]);
    FormatLiteralPrefix(p1, "%s" + (p2 + "%s" + p3), [a, b]);
    assert p1 + "%s" + p2 + "%s" + p3 == p1 + ("%s" + (p2 + "%s" + p3));
    assert p1 + (a + (p2 + b + p3)) == p1 + a + p2 + b + p3;
  }

  /** The position of the first `c` in `s`, or `|s|` when there is none. */
  function IndexOf(s: string, c: char): (i: nat)
    ensures i <= |s|
  {
    if s == [] then 0
    else if s[0] == c then 0
    else 1 + IndexOf(s[1..], c)
  }

  /** The first `c` after a text free of `c` is the one that ends it. */
  lemma {:induction false} IndexOfAfterFree(a: string, x: string, c: char)
    requires Free(a, c)
    ensures IndexOf(a + [c] + x, c) == |a|
    decreases |a|
  {
    if a != [] {
      assert a[0] in a;
      assert (a + [c] + x)[1..] == a[1..] + [c] + x;
      IndexOfAfterFree(a[1..], x, c);
    }
  }

  /** `a + [c] + x` splits in only one way when `a` holds no `c`. */
  lemma SplitAt(a: string, x: string, b: string, y: string, c: char)
    requires Free(a, c) && Free(b, c)
    requires a + [c] + x == b + [c] + y
    ensures a == b && x == y
  {
    var s := a + [c] + x;
    IndexOfAfterFree(a, x, c);
    IndexOfAfterFree(b, y, c);
    assert a == s[..|a|] == b;
    assert x == s[|a| + 1..] == y;
  }
}
