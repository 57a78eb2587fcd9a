/** The part of Java's String.format the messages use: one "%s" conversion. */
module Formatting {
  import opened Results

  /** Java renders a null argument of a "%s" conversion as the text "null". */
  function Render(s: Option<string>): (text: string)
    ensures s.Some? ==> text == s.value
    ensures s.None? ==> text == "null"
  {
    match s
    case Some(text) => text
    case None => "null"
  }

  /** Replaces the first "%s" of `template` by `arg`; a template without one is returned as is. */
  function FormatOne(template: string, arg: string): (r: string)
    ensures |r| == |template| || |r| == |template| - 2 + |arg|
    decreases |template|
  {
    if |template| < 2 then template
    else if template[0] == '%' && template[1] == 's' then arg + template[2..]
    else [template[0]] + FormatOne(template[1..], arg)
  }

  /** A template whose only '%' opens its "%s" is the text around it with the argument spliced in. */
  lemma {:induction false} FormatOneSplices(pre: string, post: string, arg: string)
    requires '%' !in pre
    ensures FormatOne(pre + "%s" + post, arg) == pre + arg + post
    decreases |pre|
  {
    if pre == [] {
      FormatOneAtConversion(post, arg);
      assert pre + "%s" + post == "%s" + post;
    } else {
      var rest := pre[1..];
      assert pre == [pre[0]] + rest;
      assert '%' !in rest;
      FormatOneSplices(rest, post, arg);
      FormatOneStep(pre[0], rest + "%s" + post, arg);
      assert [pre[0]] + (rest + "%s" + post) == pre + "%s" + post;
      assert [pre[0]] + (rest + arg + post) == pre + arg + post;
    }
  }

  /** A leading "%s" is replaced by the argument. */
  lemma FormatOneAtConversion(post: string, arg: string)
    ensures FormatOne("%s" + post, arg) == arg + post
  {
  }

  /** A leading character other than '%' is copied through. */
  lemma FormatOneStep(c: char, tail: string, arg: string)
    requires c != '%' && |tail| >= 1
    ensures FormatOne([c] + tail, arg) == [c] + FormatOne(tail, arg)
  {
  }

  /** A template without any '%' is returned unchanged, whatever the argument. */
  lemma {:induction false} FormatOneWithoutConversion(template: string, arg: string)
    requires '%' !in template
    ensures FormatOne(template, arg) == template
    decreases |template|
  {
    if |template| >= 2 {
      var rest := template[1..];
      assert template == [template[0]] + rest;
      assert '%' !in rest;
      FormatOneWithoutConversion(rest, arg);
    }
  }
}
