/** `java.lang.String.format` for templates whose only conversions are `%s` and
    `%%`, applied to string arguments. `None` stands for the exceptions Java
    throws on a `%s` with no argument left, and also every conversion other than
    `%s` and `%%` (such as `%n`, `%S` or a width), which this model does not cover.
    Arguments beyond the last conversion are ignored, as in Java. */
module JavaFormat {
  import opened Outcomes

  /** Puts `prefix` in front of a formatted string, if there is one. */
  function Prepend(prefix: string, r: Option<string>): Option<string>
  {
    match r
    case Some(s) => Some(prefix + s)
    case None => None
  }

  function Format(template: string, args: seq<string>): (r: Option<string>)
    ensures '%' !in template ==> r == Some(template)
    decreases |template|
  {
    if template == [] then Some("")
    else if template[0] != '%' then
      assert template == template[..1] + template[1..];
      Prepend(template[..1], Format(template[1..], args))
    else if |template| == 1 then None
    else if template[1] == '%' then Prepend("%", Format(template[2..], args))
    else if template[1] == 's' then
      if args == [] then None else Prepend(args[0], Format(template[2..], args[1..]))
    else None
  }

  lemma PrependAssociative(a: string, b: string, r: Option<string>)
    ensures Prepend(a, Prepend(b, r)) == Prepend(a + b, r)
  {
    match r
    case Some(s) => assert a + (b + s) == (a + b) + s;
    case None =>
  }

  /** Text without `%` is copied to the output as it stands. */
  lemma {:induction false} FormatLiteral(literal: string, rest: string, args: seq<string>)
    requires '%' !in literal
    ensures Format(literal + rest, args) == Prepend(literal, Format(rest, args))
  {
    if literal == [] {
      assert literal + rest == rest;
      match Format(rest, args)
      case Some(s) => assert literal + s == s;
      case None =>
    } else {
      var t := literal + rest;
      assert t[0] == literal[0];
      assert t[..1] == literal[..1];
      assert t[1..] == literal[1..] + rest;
      FormatLiteral(literal[1..], rest, args);
      PrependAssociative(literal[..1], literal[1..], Format(rest, args));
      assert literal[..1] + literal[1..] == literal;
    }
  }

  /** A `%s` is replaced by the next argument verbatim: a `%` inside the
      argument is not read as a conversion. */
  lemma FormatArgument(rest: string, arg: string, args: seq<string>)
    ensures Format("%s" + rest, [arg] + args) == Prepend(arg, Format(rest, args))
  {
    var t := "%s" + rest;
    assert t[0] == '%' && t[1] == 's' && t[2..] == rest;
    assert ([arg] + args)[0] == arg && ([arg] + args)[1..] == args;
  }

  /** One literal run followed by one `%s`. */
  lemma FormatStep(literal: string, arg: string, rest: string, args: seq<string>)
    requires '%' !in literal
    ensures Format(literal + ("%s" + rest), [arg] + args) == Prepend(literal + arg, Format(rest, args))
  {
    FormatLiteral(literal, "%s" + rest, [arg] + args);
    FormatArgument(rest, arg, args);
    PrependAssociative(literal, arg, Format(rest, args));
  }

  /** A template of two literal runs, each followed by a `%s`. */
  lemma FormatTwo(l0: string, l1: string, a: string, b: string)
    requires '%' !in l0 && '%' !in l1
    ensures Format(l0 + ("%s" + (l1 + ("%s" + ""))), [a, b]) == Some(l0 + a + l1 + b)
  {
    FormatStep(l1, b, "", []);
    assert [b] + [] == [b];
    FormatEnd([]);
    FormatStep(l0, a, l1 + ("%s" + ""), [b]);
    assert [a, b] == [a] + [b];
    assert l0 + a + (l1 + b + "") == l0 + a + l1 + b;
  }

  /** A template of three literal runs, each followed by a `%s`. */
  lemma FormatThree(l0: string, l1: string, l2: string, a: string, b: string, c: string)
    requires '%' !in l0 && '%' !in l1 && '%' !in l2
    ensures Format(l0 + ("%s" + (l1 + ("%s" + (l2 + ("%s" + ""))))), [a, b, c]) == Some(l0 + a + l1 + b + l2 + c)
  {
    FormatTwo(l1, l2, b, c);
    FormatStep(l0, a, l1 + ("%s" + (l2 + ("%s" + ""))), [b, c]);
    assert [a, b, c] == [a] + [b, c];
    assert l0 + a + (l1 + b + l2 + c) == l0 + a + l1 + b + l2 + c;
  }

  /** Formatting runs out of template with the output complete. */
  lemma FormatEnd(args: seq<string>)
    ensures Format("", args) == Some("")
  {
  }
}
