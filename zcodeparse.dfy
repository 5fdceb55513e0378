/**
  The securities-code normaliser `zcodeparse` (zcodeparse.py): it parses
  Chinese A-share stock codes written as `SH600000`, `600000.SH`, `600000` or
  `('0', '600000')` into the internal pair (exchange, number), where the
  exchange is "0" for Shanghai and "1" for Shenzhen, and re-renders every pair
  in the layout of a sample "format template" value.

  The Python values the normaliser receives are modelled by `PyValue`, and the
  exceptions it raises by `Error`; a call that raises returns `Err`.
*/
module ZCodeParse {

  import opened CodePattern

  /** The Python values a caller can pass */
  datatype PyValue =
    | Str(s: string)
    | Bytes(data: seq<bv8>)
    | Tuple(elems: seq<PyValue>)
    /** any other iterable: a list, a set, a generator */
    | List(elems: seq<PyValue>)
    /** a value without `__iter__`: an int, a float, None */
    | Atom

  /** The exceptions the normaliser raises */
  datatype Error =
    /** AssertionError: a tuple code whose length is not 2 */
    | TupleArity
    /** AssertionError: a tuple code whose exchange is not '0' or '1' */
    | TupleExchange
    /** "Unkown Code Num: ..." for a tuple code whose number fails the pattern */
    | UnknownCodeNum(num: string)
    /** AttributeError: the search found nothing and `.groups()` was called on None */
    | NoMatch
    /** "Unknown Code Format." */
    | UnknownCodeFormat
    /** "Unknown Code Number." from the exchange inference */
    | UnknownCodeNumber
    /** "Code type should be Tuple or Str" */
    | WrongCodeType
    /** TypeError: a str pattern searched in bytes or in a non-string */
    | NotAString
    /** TypeError: `map` over a value that is not iterable */
    | NotIterable
    /** IndexError in `_filter_None` when every group is None */
    | NoGroups
    /** KeyError in one of the two exchange tables */
    | MissingKey
    /** TypeError: the renderer is None and cannot be called */
    | NotCallable

  datatype Result<T> = Ok(value: T) | Err(error: Error)

  /** The internal code `(exch_mkt, code_num)` */
  datatype Code = Code(mkt: string, num: string)

  /** `_mapping_exch_mkt`: exchange symbol to exchange discriminant */
  const ExchMkt: map<string, string> :=
    map["SH" := "0", "sh" := "0", "SZ" := "1", "sz" := "1", "0" := "0", "1" := "1"]

  /** The renderers' table: exchange discriminant to upper-case symbol */
  const MktExch: map<string, string> := map["0" := "SH", "1" := "SZ"]

  predicate IsMkt(m: string) {
    m == "0" || m == "1"
  }

  /** A canonical code: discriminant "0"/"1" and a whitelisted six-digit number */
  predicate ValidCode(c: Code) {
    IsMkt(c.mkt) && IsCodeNum(c.num)
  }

  /** The tuple `('0', '600000')` that stands for a code */
  function AsTuple(c: Code): PyValue {
    Tuple([Str(c.mkt), Str(c.num)])
  }

  /** `zlist`: like `list()`, except that a string or bytes value is one item, never its characters */
  function ZList(raw: PyValue): (r: seq<PyValue>)
    ensures raw.Atom? ==> r == [raw]
    ensures raw.Str? || raw.Bytes? ==> r == [raw]
    ensures raw.Tuple? || raw.List? ==> r == raw.elems
  {
    if raw.Atom? then [raw]
    else if raw.Str? || raw.Bytes? then [raw]
    else raw.elems
  }

  /** Python's `t[:2]`: the first two characters, or all of a shorter string */
  function Head2(t: string): (r: string)
    ensures r <= t
    ensures |r| == if |t| < 2 then |t| else 2
  {
    if |t| <= 2 then t else t[..2]
  }

  /** `_infer_exchmkt_bycode`: the exchange symbol a bare number implies */
  function InferExchMkt(num: string): (r: Result<string>)
    ensures r.Ok? <==> Head2(num) in NumPrefixes
    ensures r == Ok("SZ") <==> Head2(num) in {"00", "30", "15"}
    ensures r == Ok("SH") <==> Head2(num) in {"60", "51"}
    ensures r.Err? ==> r.error == UnknownCodeNumber
    ensures IsCodeNum(num) ==> r.Ok? && r.value in ExchTags
  {
    if Head2(num) in ["00", "30", "15"] then Ok("SZ")
    else if Head2(num) in ["60", "51"] then Ok("SH")
    else Err(UnknownCodeNumber)
  }

  /** The non-None groups from position i on, with their positions */
  function Present(g: seq<Option<string>>, i: nat): (r: (seq<string>, seq<nat>))
    requires i <= |g|
    decreases |g| - i
    ensures |r.0| == |r.1|
  {
    if i == |g| then ([], [])
    else
      var rest := Present(g, i + 1);
      if g[i].Some? then ([g[i].value] + rest.0, [i] + rest.1) else rest
  }

  /** `Present` keeps exactly the non-None groups, each with its own position, in increasing order */
  lemma {:induction false} PresentExactly(g: seq<Option<string>>, i: nat)
    requires i <= |g|
    decreases |g| - i
    ensures forall k :: 0 <= k < |Present(g, i).1| ==>
      i <= Present(g, i).1[k] < |g| && g[Present(g, i).1[k]] == Some(Present(g, i).0[k])
    ensures forall k, l :: 0 <= k < l < |Present(g, i).1| ==> Present(g, i).1[k] < Present(g, i).1[l]
    ensures forall j :: i <= j < |g| && g[j].Some? ==> j in Present(g, i).1
  {
    if i < |g| {
      PresentExactly(g, i + 1);
      var rest := Present(g, i + 1);
      if g[i].Some? {
        var r := Present(g, i);
        assert r.1 == [i] + rest.1 && r.0 == [g[i].value] + rest.0;
        assert forall k :: 1 <= k < |r.1| ==> r.1[k] == rest.1[k - 1] && r.0[k] == rest.0[k - 1];
      }
    }
  }

  /**
    `_filter_None`: the non-None values and, in increasing order, their
    positions; an IndexError when there are none.
  */
  function FilterNone(g: seq<Option<string>>): (r: Result<(seq<string>, seq<nat>)>)
    ensures r.Err? <==> forall j :: 0 <= j < |g| ==> g[j].None?
    ensures r.Err? ==> r.error == NoGroups
    ensures r.Ok? ==> |r.value.0| == |r.value.1|
    ensures r.Ok? ==> forall k :: 0 <= k < |r.value.1| ==> r.value.1[k] < |g| && g[r.value.1[k]] == Some(r.value.0[k])
    ensures r.Ok? ==> forall k, l :: 0 <= k < l < |r.value.1| ==> r.value.1[k] < r.value.1[l]
    ensures r.Ok? ==> forall j :: 0 <= j < |g| && g[j].Some? ==> j in r.value.1
  {
    PresentExactly(g, 0);
    var (vals, pos) := Present(g, 0);
    if pos == [] then Err(NoGroups)
    else
      assert g[pos[0]].Some?;
      Ok((vals, pos))
  }

  lemma PrefixGroupsPresent(tag: string, num: string)
    ensures Present(Groups(PrefixForm(tag, num)), 0) == ([tag, num], [0, 1])
  {
    var g := Groups(PrefixForm(tag, num));
    assert Present(g, 2) == ([], []) by {
      assert Present(g, 5) == ([], []);
      assert Present(g, 4) == ([], []);
      assert Present(g, 3) == ([], []);
    }
    assert Present(g, 1).0 == [num] && Present(g, 1).1 == [1];
    assert Present(g, 0).0 == [tag, num] && Present(g, 0).1 == [0, 1];
  }

  lemma SuffixGroupsPresent(num: string, tag: string)
    ensures Present(Groups(SuffixForm(num, tag)), 0) == ([num, tag], [2, 3])
  {
    var g := Groups(SuffixForm(num, tag));
    assert Present(g, 4) == ([], []) by {
      assert Present(g, 5) == ([], []);
    }
    assert Present(g, 3).0 == [tag] && Present(g, 3).1 == [3];
    assert Present(g, 2).0 == [num, tag] && Present(g, 2).1 == [2, 3];
    assert Present(g, 1) == Present(g, 2);
  }

  lemma BareGroupsPresent(num: string)
    ensures Present(Groups(BareForm(num)), 0) == ([num], [4])
  {
    var g := Groups(BareForm(num));
    assert Present(g, 4).0 == [num] && Present(g, 4).1 == [4] by {
      assert Present(g, 5) == ([], []);
    }
    assert Present(g, 3) == Present(g, 4);
    assert Present(g, 2) == Present(g, 4);
    assert Present(g, 1) == Present(g, 4);
  }

  /** The positions `_filter_None` reports are (0,1), (2,3) or (4,), one per cluster */
  lemma GroupPositions(m: Match)
    ensures FilterNone(Groups(m)).Ok?
    ensures m.PrefixForm? ==> FilterNone(Groups(m)).value == ([m.tag, m.num], [0, 1])
    ensures m.SuffixForm? ==> FilterNone(Groups(m)).value == ([m.num, m.tag], [2, 3])
    ensures m.BareForm? ==> FilterNone(Groups(m)).value == ([m.num], [4])
  {
    match m
    case PrefixForm(tag, num) => PrefixGroupsPresent(tag, num);
    case SuffixForm(num, tag) => SuffixGroupsPresent(num, tag);
    case BareForm(num) => BareGroupsPresent(num);
  }

  lemma ExchTagsMapped(tag: string)
    requires tag in ExchTags
    ensures tag in ExchMkt && IsMkt(ExchMkt[tag])
    ensures ExchMkt[tag] == "0" <==> tag == "SH" || tag == "sh"
  {
  }

  /**
    The text branch of `__parse`: search, dispatch on the group positions,
    infer the exchange of a bare number, then map the symbol to "0"/"1".
    Only a string the pattern does not match fails: the "Unknown Code
    Format." branch, the inference failure and the table lookup failure
    cannot happen.
  */
  function ParseText(s: string): (r: Result<Code>)
    ensures r.Ok? <==> Search(s).Some?
    ensures r.Err? ==> r.error == NoMatch
    ensures r.Ok? ==> ValidCode(r.value)
  {
    match Search(s)
    case None => Err(NoMatch)
    case Some(m) =>
      GroupPositions(m);
      match FilterNone(Groups(m))
      case Err(e) => Err(e)
      case Ok((vals, pos)) =>
        var found: Result<(string, string)> :=
          if pos == [0, 1] then Ok((vals[0], vals[1]))
          else if pos == [2, 3] then Ok((vals[1], vals[0]))
          else if pos == [4] then
            match InferExchMkt(vals[0])
            case Ok(exch) => Ok((exch, vals[0]))
            case Err(e) => Err(e)
          else Err(UnknownCodeFormat);
        match found
        case Err(e) => Err(e)
        case Ok((exch, num)) =>
          if exch in ExchMkt then
            ExchTagsMapped(exch);
            Ok(Code(ExchMkt[exch], num))
          else Err(MissingKey)
  }

  /**
    The tuple branch of `__parse`: accepted, and returned unchanged, exactly
    when it has two elements, the first is '0' or '1' and the second is a
    string that `^(NUM)$` matches.
  */
  function ParseTuple(elems: seq<PyValue>): (r: Result<Code>)
    ensures r.Ok? <==>
      && |elems| == 2
      && (elems[0] == Str("0") || elems[0] == Str("1"))
      && elems[1].Str? && IsWholeCodeNum(elems[1].s)
    ensures r.Ok? ==> AsTuple(r.value) == Tuple(elems) && IsMkt(r.value.mkt)
    ensures |elems| != 2 ==> r == Err(TupleArity)
    ensures |elems| == 2 && elems[0] != Str("0") && elems[0] != Str("1") ==> r == Err(TupleExchange)
    ensures |elems| == 2 && (elems[0] == Str("0") || elems[0] == Str("1")) && !elems[1].Str? ==> r == Err(NotAString)
    ensures |elems| == 2 && (elems[0] == Str("0") || elems[0] == Str("1")) && elems[1].Str? && !IsWholeCodeNum(elems[1].s) ==>
      r == Err(UnknownCodeNum(elems[1].s))
  {
    if |elems| != 2 then Err(TupleArity)
    else if elems[0] != Str("0") && elems[0] != Str("1") then Err(TupleExchange)
    else if !elems[1].Str? then Err(NotAString)
    else if IsWholeCodeNum(elems[1].s) then
      assert elems == [Str(elems[0].s), Str(elems[1].s)];
      Ok(Code(elems[0].s, elems[1].s))
    else Err(UnknownCodeNum(elems[1].s))
  }

  /** `__parse`: one code, a tuple or a string, into its internal pair */
  function Parse(code: PyValue): (r: Result<Code>)
    ensures r.Ok? ==> IsMkt(r.value.mkt)
    ensures code.Str? ==> (r.Ok? <==> Search(code.s).Some?) && (r.Ok? ==> IsCodeNum(r.value.num))
    ensures code.Tuple? && r.Ok? ==> AsTuple(r.value) == code
    ensures code.Bytes? ==> r == Err(NotAString)
    ensures code.List? || code.Atom? ==> r == Err(WrongCodeType)
  {
    match code
    case Tuple(elems) => ParseTuple(elems)
    case Str(s) => ParseText(s)
    case Bytes(_) => Err(NotAString)
    case _ => Err(WrongCodeType)
  }

  /**
    `list(map(f, xs))`: f applied to every element in order; the first
    element f fails on aborts the whole pass with its error.
  */
  function MapAll<A, B>(f: A -> Result<B>, xs: seq<A>): (r: Result<seq<B>>)
    ensures r.Ok? <==> forall i :: 0 <= i < |xs| ==> f(xs[i]).Ok?
    ensures r.Ok? ==> |r.value| == |xs| && forall i :: 0 <= i < |xs| ==> r.value[i] == f(xs[i]).value
    ensures r.Err? ==>
      exists i :: 0 <= i < |xs| && f(xs[i]) == Err(r.error) && forall j :: 0 <= j < i ==> f(xs[j]).Ok?
  {
    if xs == [] then Ok([])
    else
      match f(xs[0])
      case Err(e) => Err(e)
      case Ok(y) =>
        match MapAll(f, xs[1..])
        case Err(e) => Err(e)
        case Ok(ys) => Ok([y] + ys)
  }

  /** What `__vparse` returns: one pair, or a list of pairs */
  datatype Parsed = One(code: Code) | Many(codes: seq<Code>)

  /** `__vparse`: a scalar code is parsed alone, anything else element by element */
  function VParse(codes: PyValue): (r: Result<Parsed>)
    ensures codes.Str? || codes.Bytes? || codes.Tuple? ==>
      (r.Ok? <==> Parse(codes).Ok?) && (r.Ok? ==> r.value == One(Parse(codes).value))
    ensures codes.List? ==> (r.Ok? <==> forall i :: 0 <= i < |codes.elems| ==> Parse(codes.elems[i]).Ok?)
    ensures codes.List? && r.Ok? ==>
      r.value.Many? && |r.value.codes| == |codes.elems| &&
      forall i :: 0 <= i < |codes.elems| ==> r.value.codes[i] == Parse(codes.elems[i]).value
    ensures codes.Atom? ==> r == Err(NotIterable)
  {
    match codes
    case Atom => Err(NotIterable)
    case List(elems) =>
      (match MapAll(Parse, elems)
       case Ok(cs) => Ok(Many(cs))
       case Err(e) => Err(e))
    case _ =>
      match Parse(codes)
      case Ok(c) => Ok(One(c))
      case Err(e) => Err(e)
  }

  /**
    The function `__format_reconstructcode` returns, by the layout of the
    template; `NoRenderer` stands for the None it returns for a template that
    is neither a tuple nor text.
  */
  datatype Renderer = PrefixRenderer | SuffixRenderer | BareRenderer | Identity | NoRenderer

  /**
    `__format_reconstructcode`: the renderer is chosen by which cluster the
    template matched, never by its digits or letter case.
  */
  function MakeRenderer(formatlike: PyValue): (r: Result<Renderer>)
    ensures formatlike.Str? ==> (r.Ok? <==> Search(formatlike.s).Some?)
    ensures formatlike.Str? && r.Ok? ==>
      && (r.value == PrefixRenderer <==> Search(formatlike.s).value.PrefixForm?)
      && (r.value == SuffixRenderer <==> Search(formatlike.s).value.SuffixForm?)
      && (r.value == BareRenderer <==> Search(formatlike.s).value.BareForm?)
    ensures formatlike.Str? && r.Err? ==> r.error == NoMatch
    ensures formatlike.Tuple? ==> (r.Ok? <==> ParseTuple(formatlike.elems).Ok?)
    ensures formatlike.Tuple? ==> (r.Ok? ==> r.value == Identity) && (r.Err? ==> r == Err(ParseTuple(formatlike.elems).error))
    ensures formatlike.Bytes? ==> r == Err(NotAString)
    ensures r == Ok(NoRenderer) <==> formatlike.List? || formatlike.Atom?
  {
    match formatlike
    case Tuple(elems) =>
      (match ParseTuple(elems)
       case Ok(_) => Ok(Identity)
       case Err(e) => Err(e))
    case Str(s) =>
      (match Search(s)
       case None => Err(NoMatch)
       case Some(m) =>
         GroupPositions(m);
         match FilterNone(Groups(m))
         case Err(e) => Err(e)
         case Ok((_, pos)) =>
           if pos == [0, 1] then Ok(PrefixRenderer)
           else if pos == [2, 3] then Ok(SuffixRenderer)
           else if pos == [4] then Ok(BareRenderer)
           else Ok(NoRenderer))
    case Bytes(_) => Err(NotAString)
    case _ => Ok(NoRenderer)
  }

  /** Applies a renderer to one internal pair */
  function Render(f: Renderer, c: Code): (r: Result<PyValue>)
    ensures r.Ok? <==> f != NoRenderer && (f == PrefixRenderer || f == SuffixRenderer ==> IsMkt(c.mkt))
    ensures f == NoRenderer ==> r == Err(NotCallable)
    ensures r.Ok? ==> r.value.Str? || r.value.Tuple?
    ensures f == PrefixRenderer && r.Ok? ==>
      r.value.Str? && |r.value.s| >= 2 && r.value.s[..2] in {"SH", "SZ"} && r.value.s[2..] == c.num && (r.value.s[..2] == "SH" <==> c.mkt == "0")
    ensures f == SuffixRenderer && r.Ok? ==>
      r.value.Str? && |r.value.s| == |c.num| + 3 && r.value.s[..|c.num|] == c.num && r.value.s[|c.num|] == '.'
      && r.value.s[|c.num| + 1..] in {"SH", "SZ"} && (r.value.s[|c.num| + 1..] == "SH" <==> c.mkt == "0")
    ensures f == BareRenderer ==> r == Ok(Str(c.num))
    ensures f == Identity ==> r == Ok(AsTuple(c))
  {
    match f
    case PrefixRenderer => if c.mkt in MktExch then Ok(Str(MktExch[c.mkt] + c.num)) else Err(MissingKey)
    case SuffixRenderer => if c.mkt in MktExch then Ok(Str(c.num + "." + MktExch[c.mkt])) else Err(MissingKey)
    case BareRenderer => Ok(Str(c.num))
    case Identity => Ok(AsTuple(c))
    case NoRenderer => Err(NotCallable)
  }

  /** The codes one call works on: a string, bytes or tuple is one code, anything else is `zlist`ed */
  function CodesOf(codes: PyValue): (r: seq<PyValue>)
    ensures codes.Str? || codes.Bytes? || codes.Tuple? ==> r == [codes]
    ensures codes.List? ==> r == codes.elems
    ensures codes.Atom? ==> r == [codes]
  {
    ZList(if codes.Str? || codes.Bytes? || codes.Tuple? then List([codes]) else codes)
  }

  /**
    `zcodeparse(codes, formatlike)` (`__call__`): parse every code, build
    the renderer from the template, render every pair in order, and return
    the single result bare when there is exactly one code.
  */
  function Convert(codes: PyValue, formatlike: PyValue): (r: Result<PyValue>)
    ensures r.Ok? ==> (r.value.List? <==> |CodesOf(codes)| != 1)
    ensures r.Ok? ==> forall i :: 0 <= i < |CodesOf(codes)| ==> Parse(CodesOf(codes)[i]).Ok?
    ensures r.Ok? ==> MakeRenderer(formatlike).Ok?
  {
    match VParse(List(CodesOf(codes)))
    case Err(e) => Err(e)
    case Ok(Many(parsed)) =>
      match MakeRenderer(formatlike)
      case Err(e) => Err(e)
      case Ok(f) =>
        match MapAll(c => Render(f, c), parsed)
        case Err(e) => Err(e)
        case Ok(outs) => if |outs| == 1 then Ok(outs[0]) else Ok(List(outs))
  }
}
