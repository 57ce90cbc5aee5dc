/** The CodeSandbox embed (src/components/mdx/Codesandbox.js): the URL of the
    embedded iframe, built from the component's props. */
module Codesandbox {
  import opened Js

  /** The props the URL is built from (`module` is `openModule` here). */
  datatype EmbedProps = EmbedProps(
    slug: JsValue,
    fontsize: JsValue,
    console: JsValue,
    openModule: JsValue,
    view: JsValue,
    hide: JsValue)

  const EmbedBase: string := "https://codesandbox.io/embed/"

  /** `props.fontsize || 14` */
  function FontSize(props: EmbedProps): (v: JsValue)
    ensures Truthy(props.fontsize) ==> v == props.fontsize
    ensures !Truthy(props.fontsize) ==> v == Num(14)
  {
    if Truthy(props.fontsize) then props.fontsize else Num(14)
  }

  function ConsoleParam(props: EmbedProps): (param: string)
    ensures param != "" <==> Truthy(props.console)
  {
    if Truthy(props.console) then "&expanddevtools=1" else ""
  }

  function ModuleParam(props: EmbedProps): (param: string)
    ensures param != "" <==> Truthy(props.openModule)
  {
    if Truthy(props.openModule) then "&module=" + ToJsString(props.openModule) else ""
  }

  function ViewParam(props: EmbedProps): (param: string)
    ensures param != "" <==> Truthy(props.view)
  {
    if Truthy(props.view) then "&view=" + ToJsString(props.view) else ""
  }

  function HideNavParam(props: EmbedProps): (param: string)
    ensures param != "" <==> !Truthy(props.hide)
  {
    if Truthy(props.hide) then "" else "&hidenavigation=1"
  }

  /** The optional query parameters, in the order they may appear. */
  datatype EmbedOption = ExpandDevtools | Module(file: string) | View(mode: string) | HideNavigation

  function Rank(o: EmbedOption): (r: nat)
    ensures r < 4
  {
    match o
    case ExpandDevtools => 0
    case Module(_) => 1
    case View(_) => 2
    case HideNavigation => 3
  }

  function OptionText(o: EmbedOption): (text: string)
    ensures "&" <= text
  {
    match o
    case ExpandDevtools => "&expanddevtools=1"
    case Module(m) => "&module=" + m
    case View(v) => "&view=" + v
    case HideNavigation => "&hidenavigation=1"
  }

  function OptionsText(options: seq<EmbedOption>): (text: string)
    ensures text == "" <==> options == []
  {
    if options == [] then "" else OptionText(options[0]) + OptionsText(options[1..])
  }

  /** Options in strictly increasing rank: each at most once, in the fixed order. */
  predicate Ordered(options: seq<EmbedOption>)
  {
    forall i, j :: 0 <= i < j < |options| ==> Rank(options[i]) < Rank(options[j])
  }

  /** Every option of `a` ranks below `n`. */
  predicate RanksBelow(a: seq<EmbedOption>, n: nat)
  {
    forall i :: 0 <= i < |a| ==> Rank(a[i]) < n
  }

  /** Appending nothing, or one option of rank `n`, to an ordered list whose
      ranks are below `n` keeps it ordered, with ranks below `n + 1`. */
  lemma OrderedStep(a: seq<EmbedOption>, b: seq<EmbedOption>, n: nat)
    requires Ordered(a) && RanksBelow(a, n)
    requires b == [] || (|b| == 1 && Rank(b[0]) == n)
    ensures Ordered(a + b) && RanksBelow(a + b, n + 1)
  {
    if b == [] {
      assert a + b == a;
    } else {
      var ab := a + b;
      forall i | 0 <= i < |ab|
        ensures Rank(ab[i]) < n + 1
      {
        if i < |a| { assert ab[i] == a[i]; }
      }
      forall i, j | 0 <= i < j < |ab|
        ensures Rank(ab[i]) < Rank(ab[j])
      {
        assert ab[i] == a[i];
        if j < |a| { assert ab[j] == a[j]; }
      }
    }
  }

  /** The optional parameters the props select: `expanddevtools` iff `console`
      is truthy, `module` iff `module` is, `view` iff `view` is, and
      `hidenavigation` iff `hide` is falsy; the module and view options carry
      the props' values as strings. */
  function EmbedOptions(props: EmbedProps): (options: seq<EmbedOption>)
    ensures ExpandDevtools in options <==> Truthy(props.console)
    ensures Module(ToJsString(props.openModule)) in options <==> Truthy(props.openModule)
    ensures View(ToJsString(props.view)) in options <==> Truthy(props.view)
    ensures HideNavigation in options <==> !Truthy(props.hide)
    ensures forall o :: o in options && o.Module? ==> o.file == ToJsString(props.openModule)
    ensures forall o :: o in options && o.View? ==> o.mode == ToJsString(props.view)
  {
    (if Truthy(props.console) then [ExpandDevtools] else [])
    + (if Truthy(props.openModule) then [Module(ToJsString(props.openModule))] else [])
    + (if Truthy(props.view) then [View(ToJsString(props.view))] else [])
    + (if Truthy(props.hide) then [] else [HideNavigation])
  }

  /** The selected options come in the fixed order console, module, view,
      hide-navigation, each at most once. */
  lemma EmbedOptionsOrdered(props: EmbedProps)
    ensures Ordered(EmbedOptions(props))
  {
    var c := if Truthy(props.console) then [ExpandDevtools] else [];
    var m := if Truthy(props.openModule) then [Module(ToJsString(props.openModule))] else [];
    var v := if Truthy(props.view) then [View(ToJsString(props.view))] else [];
    var h := if Truthy(props.hide) then [] else [HideNavigation];
    assert c + m + v + h == EmbedOptions(props);
    OrderedFour(c, m, v, h);
  }

  /** Four lists of at most one option each, of ranks 0, 1, 2 and 3, concatenate
      to an ordered list. */
  lemma OrderedFour(c: seq<EmbedOption>, m: seq<EmbedOption>, v: seq<EmbedOption>, h: seq<EmbedOption>)
    requires c == [] || (|c| == 1 && Rank(c[0]) == 0)
    requires m == [] || (|m| == 1 && Rank(m[0]) == 1)
    requires v == [] || (|v| == 1 && Rank(v[0]) == 2)
    requires h == [] || (|h| == 1 && Rank(h[0]) == 3)
    ensures Ordered(c + m + v + h)
  {
    OrderedStep([], c, 0);
    assert [] + c == c;
    OrderedStep(c, m, 1);
    OrderedStep(c + m, v, 2);
    OrderedStep(c + m + v, h, 3);
  }

  lemma {:induction false} OptionsTextConcat(a: seq<EmbedOption>, b: seq<EmbedOption>)
    ensures OptionsText(a + b) == OptionsText(a) + OptionsText(b)
  {
    if a == [] {
      assert a + b == b;
    } else {
      assert (a + b)[0] == a[0] && (a + b)[1..] == a[1..] + b;
      OptionsTextConcat(a[1..], b);
    }
  }

  /** The iframe's `src`: the embed base, the slug, the font size, then the
      selected optional parameters in their fixed order. */
  function EmbedUrl(props: EmbedProps): (url: string)
    ensures url == EmbedBase + ToJsString(props.slug) + "?fontsize=" + ToJsString(FontSize(props))
                   + OptionsText(EmbedOptions(props))
  {
    var fontsize := FontSize(props);
    var console := ConsoleParam(props);
    var module_ := ModuleParam(props);
    var view := ViewParam(props);
    var hideNav := HideNavParam(props);
    var prefix := EmbedBase + ToJsString(props.slug) + "?fontsize=" + ToJsString(fontsize);
    EmbedOptionsText(props);
    AppendFour(prefix, console, module_, view, hideNav);
    prefix + console + module_ + view + hideNav
  }

  lemma AppendFour(p: string, a: string, b: string, c: string, d: string)
    ensures p + a + b + c + d == p + (a + b + c + d)
  {
  }

  /** The four parameter strings, concatenated, spell out the selected options. */
  lemma EmbedOptionsText(props: EmbedProps)
    ensures ConsoleParam(props) + ModuleParam(props) + ViewParam(props) + HideNavParam(props)
         == OptionsText(EmbedOptions(props))
  {
    var c := if Truthy(props.console) then [ExpandDevtools] else [];
    var m := if Truthy(props.openModule) then [Module(ToJsString(props.openModule))] else [];
    var v := if Truthy(props.view) then [View(ToJsString(props.view))] else [];
    var h := if Truthy(props.hide) then [] else [HideNavigation];
    assert OptionsText(c) == ConsoleParam(props) by { OptionsTextSingle(ExpandDevtools); }
    assert OptionsText(m) == ModuleParam(props) by { OptionsTextSingle(Module(ToJsString(props.openModule))); }
    assert OptionsText(v) == ViewParam(props) by { OptionsTextSingle(View(ToJsString(props.view))); }
    assert OptionsText(h) == HideNavParam(props) by { OptionsTextSingle(HideNavigation); }
    calc {
      OptionsText(EmbedOptions(props));
      OptionsText(c + m + v + h);
      { OptionsTextConcat(c + m + v, h); }
      OptionsText(c + m + v) + OptionsText(h);
      { OptionsTextConcat(c + m, v); }
      OptionsText(c + m) + OptionsText(v) + OptionsText(h);
      { OptionsTextConcat(c, m); }
      OptionsText(c) + OptionsText(m) + OptionsText(v) + OptionsText(h);
    }
  }

  lemma OptionsTextSingle(o: EmbedOption)
    ensures OptionsText([o]) == OptionText(o)
  {
    assert [o][1..] == [];
  }

  /** A font size of 0 is falsy and, like an absent one, gives 14. */
  lemma ZeroFontSizeGivesDefault(props: EmbedProps)
    requires props.fontsize == Num(0) || props.fontsize == Undefined
    ensures ToJsString(FontSize(props)) == "14"
  {
    assert DecimalDigits(14) == DecimalDigits(1) + [DigitChar(4)];
  }
}
