/**
 * Python's `template.format(a0, a1)` for templates whose only replacement fields are
 * `{0}` and `{1}`, as the base URI and the account resource path use it.
 */
module Format {

  /** Scans `template` left to right, replacing `{0}` by `a0` and `{1}` by `a1`. */
  function Format2(template: string, a0: string, a1: string): (s: string)
    ensures '{' !in template && '}' !in template ==> s == template
    ensures a0 == "{0}" && a1 == "{1}" ==> s == template
    decreases |template|
  {
    if |template| >= 3 && template[..3] == "{0}" then
      assert template == template[..3] + template[3..];
      a0 + Format2(template[3..], a0, a1)
    else if |template| >= 3 && template[..3] == "{1}" then
      assert template == template[..3] + template[3..];
      a1 + Format2(template[3..], a0, a1)
    else if |template| == 0 then ""
    else
      assert template == [template[0]] + template[1..];
      [template[0]] + Format2(template[1..], a0, a1)
  }

  /** Text without a brace is copied through unchanged, whatever follows it. */
  lemma {:induction false} LiteralPrefix(lit: string, rest: string, a0: string, a1: string)
    requires '{' !in lit && '}' !in lit
    ensures Format2(lit + rest, a0, a1) == lit + Format2(rest, a0, a1)
    decreases |lit|
  {
    if |lit| > 0 {
      var t := lit + rest;
      assert t[0] == lit[0] && lit[0] != '{';
      assert |t| >= 3 ==> t[..3][0] == t[0];
      assert "{0}"[0] == '{' && "{1}"[0] == '{';
      assert Format2(t, a0, a1) == [t[0]] + Format2(t[1..], a0, a1);
      assert t[1..] == lit[1..] + rest;
      LiteralPrefix(lit[1..], rest, a0, a1);
      assert [lit[0]] + lit[1..] == lit;
    } else {
      assert lit + rest == rest;
    }
  }

  /** A leading `{0}` becomes the first argument. */
  lemma FieldZero(rest: string, a0: string, a1: string)
    ensures Format2("{0}" + rest, a0, a1) == a0 + Format2(rest, a0, a1)
  {
    var t := "{0}" + rest;
    assert t[..3] == "{0}" && t[3..] == rest;
  }

  /** A leading `{1}` becomes the second argument. */
  lemma FieldOne(rest: string, a0: string, a1: string)
    ensures Format2("{1}" + rest, a0, a1) == a1 + Format2(rest, a0, a1)
  {
    var t := "{1}" + rest;
    assert t[..3] == "{1}" && t[3..] == rest;
    assert t[..3] != "{0}" by { assert t[1] == '1'; }
  }

  /**
   * Concatenation regroups freely. Dafny knows this; stating each regrouping as a call
   * keeps `FillTwo`'s proof small enough to check quickly.
   */
  lemma Assoc(a: string, b: string, c: string)
    ensures a + (b + c) == (a + b) + c
  {
  }

  /** The template `p{0}m{1}` for literal `p` and `m` fills in the two arguments in order. */
  lemma FillTwo(p: string, m: string, a0: string, a1: string)
    requires '{' !in p && '}' !in p && '{' !in m && '}' !in m
    ensures Format2(p + "{0}" + m + "{1}", a0, a1) == p + a0 + m + a1
  {
    var t1 := "{1}";
    var t0 := "{0}" + (m + t1);
    Assoc(p + "{0}", m, t1);
    Assoc(p, "{0}", m + t1);
    LiteralPrefix(p, t0, a0, a1);
    FieldZero(m + t1, a0, a1);
    LiteralPrefix(m, t1, a0, a1);
    FieldOne("", a0, a1);
    assert t1 == "{1}" + "";
    assert Format2("", a0, a1) == "";
    assert Format2(t1, a0, a1) == a1;
    Assoc(p, a0, m + a1);
    Assoc(p + a0, m, a1);
  }
}
