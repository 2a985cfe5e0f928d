/**
 * The CSS `filter` value built from a photo's filter parameters: six filter
 * functions in a fixed order, joined with single spaces.  How JavaScript
 * prints a number inside a template literal is not part of this model; it is
 * the parameter `fmt`.
 */
module FilterStyle {
  import opened Types

  datatype FilterFunction = FilterFunction(name: string, amount: real, unit: string)

  /** The filter functions in the order they are applied. */
  function FilterFunctions(f: Filters): (r: seq<FilterFunction>)
    ensures |r| == 6
    ensures r[0].name == "brightness" && r[1].name == "contrast" && r[2].name == "saturate"
    ensures r[3].name == "sepia" && r[4].name == "grayscale" && r[5].name == "blur"
    ensures r[0].amount == f.brightness && r[1].amount == f.contrast && r[2].amount == f.saturation
    ensures r[3].amount == f.sepia && r[4].amount == f.grayscale && r[5].amount == f.blur
    ensures forall i :: 0 <= i < |r| ==> (r[i].unit == "px" <==> i == 5) && (i < 5 ==> r[i].unit == "")
  {
    [ FilterFunction("brightness", f.brightness, ""),
      FilterFunction("contrast", f.contrast, ""),
      FilterFunction("saturate", f.saturation, ""),
      FilterFunction("sepia", f.sepia, ""),
      FilterFunction("grayscale", f.grayscale, ""),
      FilterFunction("blur", f.blur, "px") ]
  }

  function Css(fn: FilterFunction, fmt: real -> string): string
  {
    fn.name + "(" + fmt(fn.amount) + fn.unit + ")"
  }

  function CssAll(fns: seq<FilterFunction>, fmt: real -> string): (r: seq<string>)
    ensures |r| == |fns|
    ensures forall i :: 0 <= i < |fns| ==> r[i] == Css(fns[i], fmt)
  {
    if fns == [] then [] else [Css(fns[0], fmt)] + CssAll(fns[1..], fmt)
  }

  /** `Array.prototype.join(' ')`. */
  function JoinSpaces(parts: seq<string>): string
  {
    if |parts| == 0 then ""
    else if |parts| == 1 then parts[0]
    else parts[0] + " " + JoinSpaces(parts[1..])
  }

  /** `getFilterStyle(filters).filter`. */
  function FilterStyle(f: Filters, fmt: real -> string): string
  {
    JoinSpaces(CssAll(FilterFunctions(f), fmt))
  }

  /** The position of the first space of a string that has one. */
  function FirstSpace(s: string): (i: nat)
    requires ' ' in s
    ensures i < |s| && s[i] == ' '
    ensures forall j :: 0 <= j < i ==> s[j] != ' '
  {
    if s[0] == ' ' then 0
    else
      assert s == [s[0]] + s[1..];
      FirstSpace(s[1..]) + 1
  }

  /** `s.split(' ')`, the inverse of `JoinSpaces` on parts without spaces. */
  function SplitSpaces(s: string): (r: seq<string>)
    ensures |r| >= 1
    decreases |s|
  {
    if ' ' !in s then [s]
    else
      var i := FirstSpace(s);
      [s[..i]] + SplitSpaces(s[i + 1..])
  }

  lemma FirstSpaceAt(s: string, k: nat)
    requires k < |s| && s[k] == ' '
    requires forall j :: 0 <= j < k ==> s[j] != ' '
    ensures FirstSpace(s) == k
  {
  }

  /** Splitting stops at the first space, which follows a part that has none. */
  lemma SplitFirst(p: string, rest: string)
    requires ' ' !in p
    ensures SplitSpaces(p + " " + rest) == [p] + SplitSpaces(rest)
  {
    var s := p + " " + rest;
    assert s[|p|] == ' ';
    forall j | 0 <= j < |p|
      ensures s[j] != ' '
    {
      assert s[j] == p[j];
    }
    FirstSpaceAt(s, |p|);
    assert s[..|p|] == p;
    assert s[|p| + 1..] == rest;
  }

  /** Joining parts that hold no space and splitting again gives the parts back. */
  lemma {:induction false} SplitJoin(parts: seq<string>)
    requires |parts| >= 1
    requires forall i :: 0 <= i < |parts| ==> ' ' !in parts[i]
    ensures SplitSpaces(JoinSpaces(parts)) == parts
  {
    if |parts| == 1 {
      assert ' ' !in parts[0];
    } else {
      assert ' ' !in parts[0];
      SplitFirst(parts[0], JoinSpaces(parts[1..]));
      SplitJoin(parts[1..]);
      assert parts == [parts[0]] + parts[1..];
    }
  }

  lemma NoSpaceInCss(fn: FilterFunction, fmt: real -> string)
    requires ' ' !in fn.name && ' ' !in fn.unit && ' ' !in fmt(fn.amount)
    ensures ' ' !in Css(fn, fmt)
  {
  }

  /** No filter function's name or unit holds a space. */
  lemma NoSpaceInNames(f: Filters)
    ensures forall i :: 0 <= i < 6 ==> ' ' !in FilterFunctions(f)[i].name && ' ' !in FilterFunctions(f)[i].unit
  {
    var fns := FilterFunctions(f);
    assert ' ' !in fns[0].name && ' ' !in fns[1].name && ' ' !in fns[2].name;
    assert ' ' !in fns[3].name && ' ' !in fns[4].name && ' ' !in fns[5].name;
    assert ' ' !in fns[5].unit;
  }

  /**
   * Whatever the preset tag and however numbers print (as long as a printed
   * number holds no space), the style splits into exactly the six rendered
   * filter functions, in their fixed order.
   */
  lemma FilterStyleParts(f: Filters, fmt: real -> string)
    requires forall x :: ' ' !in fmt(x)
    ensures SplitSpaces(FilterStyle(f, fmt)) == CssAll(FilterFunctions(f), fmt)
    ensures |SplitSpaces(FilterStyle(f, fmt))| == 6
    ensures FilterStyle(f, fmt) == FilterStyle(f.(preset := None), fmt)
  {
    var fns := FilterFunctions(f);
    var parts := CssAll(fns, fmt);
    NoSpaceInNames(f);
    forall i | 0 <= i < |parts|
      ensures ' ' !in parts[i]
    {
      NoSpaceInCss(fns[i], fmt);
    }
    SplitJoin(parts);
    assert FilterFunctions(f.(preset := None)) == fns;
  }
}
