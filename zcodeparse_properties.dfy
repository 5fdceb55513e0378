/**
  Properties of the normaliser that relate several of its operations:
  what each layout parses to, round trips through the renderers, the
  renderer's independence from the template's content, and how a call
  shapes its result and fails.
*/
module ZCodeParseProperties {

  import opened CodePattern
  import opened ZCodeParse

  /** A whitelisted number starts with a digit, so it never reads as an exchange tag */
  lemma CodeNumIsNotTag(t: string)
    requires IsCodeNum(t)
    ensures t[..2] !in ExchTags
  {
    assert t[..2][0] == t[0];
  }

  /** Clusters 2 and 3 begin with the number, so neither can start at a non-digit */
  lemma {:induction false} NoNumberAt(s: string, p: nat)
    requires p < |s| && !IsDigit(s[p])
    ensures !SuffixAt(s, p) && !BareAt(s, p)
  {
    if p + 6 <= |s| {
      var t := s[p..p + 6];
      assert t[..2][0] == t[0] == s[p];
    }
  }

  // ---------------------------------------------------------------------------
  // What the search finds for each layout

  /** `SH600000...`: cluster 1 wins at position 0, whatever follows the number */
  lemma {:induction false} SearchPrefixed(tag: string, num: string, rest: string)
    requires tag in ExchTags && IsCodeNum(num)
    ensures Search(tag + num + rest) == Some(PrefixForm(tag, num))
  {
    var s := tag + num + rest;
    assert s[..2] == tag && s[2..8] == num;
    assert MatchAt(s, 0) == Some(PrefixForm(tag, num));
  }

  /** `600000?SH...` with any separator but a newline: cluster 2 wins at position 0 */
  lemma {:induction false} SearchSuffixed(num: string, sep: char, tag: string, rest: string)
    requires IsCodeNum(num) && sep != '\n' && tag in ExchTags
    ensures Search(num + [sep] + tag + rest) == Some(SuffixForm(num, tag))
  {
    var s := num + [sep] + tag + rest;
    assert s[..2] == num[..2] by { assert s[..6] == num; }
    CodeNumIsNotTag(num);
    assert s[0..6] == num && s[6] == sep && s[7..9] == tag;
    assert MatchAt(s, 0) == Some(SuffixForm(num, tag));
  }

  /** A bare whitelisted number: cluster 3 matches the whole string */
  lemma {:induction false} SearchBare(num: string)
    requires IsCodeNum(num)
    ensures Search(num) == Some(BareForm(num))
  {
    assert num[0..6] == num;
    assert MatchAt(num, 0) == Some(BareForm(num));
  }

  // ---------------------------------------------------------------------------
  // Parsing each layout

  /** The exchange symbol maps case-insensitively: SH/sh to "0", SZ/sz to "1" */
  lemma ExchangeSymbolCase()
    ensures ExchMkt["SH"] == ExchMkt["sh"] == "0"
    ensures ExchMkt["SZ"] == ExchMkt["sz"] == "1"
  {
  }

  lemma {:induction false} ParsePrefixed(tag: string, num: string, rest: string)
    requires tag in ExchTags && IsCodeNum(num)
    ensures Parse(Str(tag + num + rest)) == Ok(Code(ExchMkt[tag], num))
  {
    SearchPrefixed(tag, num, rest);
    GroupPositions(PrefixForm(tag, num));
  }

  lemma {:induction false} ParseSuffixed(num: string, sep: char, tag: string, rest: string)
    requires IsCodeNum(num) && sep != '\n' && tag in ExchTags
    ensures Parse(Str(num + [sep] + tag + rest)) == Ok(Code(ExchMkt[tag], num))
  {
    SearchSuffixed(num, sep, tag, rest);
    GroupPositions(SuffixForm(num, tag));
  }

  /** Text whose search ends in cluster 3 takes the exchange its number's prefix implies */
  lemma {:induction false} ParseBareMatch(s: string, num: string)
    requires Search(s) == Some(BareForm(num))
    ensures Parse(Str(s)).Ok? && Parse(Str(s)).value.num == num
    ensures Parse(Str(s)).value.mkt == "1" <==> num[..2] in {"00", "30", "15"}
    ensures Parse(Str(s)).value.mkt == "0" <==> num[..2] in {"60", "51"}
  {
    GroupPositions(BareForm(num));
  }

  /** Text whose search ends in cluster 1 parses to the tag's exchange and the number, wherever the text goes on */
  lemma {:induction false} ParsePrefixMatch(s: string, tag: string, num: string)
    requires Search(s) == Some(PrefixForm(tag, num))
    ensures Parse(Str(s)) == Ok(Code(ExchMkt[tag], num))
  {
    GroupPositions(PrefixForm(tag, num));
  }

  /** Text whose search ends in cluster 2 parses to the tag's exchange and the number, wherever the match starts */
  lemma {:induction false} ParseSuffixMatch(s: string, num: string, tag: string)
    requires Search(s) == Some(SuffixForm(num, tag))
    ensures Parse(Str(s)) == Ok(Code(ExchMkt[tag], num))
  {
    GroupPositions(SuffixForm(num, tag));
  }

  /** A bare number takes the exchange its prefix implies: 00/30/15 Shenzhen, 60/51 Shanghai */
  lemma {:induction false} ParseBare(num: string)
    requires IsCodeNum(num)
    ensures Parse(Str(num)).Ok? && Parse(Str(num)).value.num == num
    ensures Parse(Str(num)).value.mkt == "1" <==> num[..2] in {"00", "30", "15"}
    ensures Parse(Str(num)).value.mkt == "0" <==> num[..2] in {"60", "51"}
  {
    SearchBare(num);
    ParseBareMatch(num, num);
  }

  /** In both lettered layouts the exchange letters are read case-insensitively: SH/sh give "0", SZ/sz give "1" */
  lemma {:induction false} CaseInsensitive(tag: string, num: string, rest: string)
    requires tag in ExchTags && IsCodeNum(num)
    ensures Parse(Str(tag + num + rest)) == Ok(Code(if tag in {"SH", "sh"} then "0" else "1", num))
    ensures Parse(Str(num + "." + tag)) == Ok(Code(if tag in {"SH", "sh"} then "0" else "1", num))
  {
    ExchTagsMapped(tag);
    ParsePrefixed(tag, num, rest);
    assert num + "." + tag == num + ['.'] + tag + "";
    ParseSuffixed(num, '.', tag, "");
  }

  /** No start position of s matches any of the three clusters */
  predicate NoClusterMatches(s: string) {
    forall q :: 0 <= q <= |s| ==> !ClusterAt(s, q)
  }

  /** Text parses exactly when some start position matches one of the clusters; else it fails with no match */
  lemma TextFailsOnlyWithoutMatch(s: string)
    ensures Parse(Str(s)).Err? <==> NoClusterMatches(s)
    ensures Parse(Str(s)).Err? ==> Parse(Str(s)).error == NoMatch
  {
  }

  // ---------------------------------------------------------------------------
  // How re.search as written reads some inputs

  /** The sample numbers used below are on the whitelist */
  lemma SampleNumbers()
    ensures IsCodeNum("600000") && IsCodeNum("000001") && IsCodeNum("601901")
    ensures IsCodeNum("000002") && IsCodeNum("000009") && IsCodeNum("002356")
  {
    assert "600000"[..2] == "60" && "000001"[..2] == "00" && "601901"[..2] == "60";
    assert "000002"[..2] == "00" && "000009"[..2] == "00" && "002356"[..2] == "00";
  }

  /** No end anchor on cluster 1: trailing text after the number is ignored */
  lemma TrailingTextIgnored()
    ensures Parse(Str("SH600000XYZ")) == Ok(Code("0", "600000"))
  {
    SampleNumbers();
    assert "SH600000XYZ" == "SH" + "600000" + "XYZ";
    ParsePrefixed("SH", "600000", "XYZ");
  }

  /** The separator of cluster 2 is an unescaped `.`: any character but a newline */
  lemma AnySeparator()
    ensures Parse(Str("600000-SH")) == Ok(Code("0", "600000"))
  {
    SampleNumbers();
    assert "600000-SH" == "600000" + ['-'] + "SH" + "";
    ParseSuffixed("600000", '-', "SH", "");
  }

  /** Cluster 3 is anchored at the end only: the last six digits of a longer number are read */
  lemma LastSixDigits()
    ensures Parse(Str("6000001")) == Ok(Code("1", "000001"))
  {
    SampleNumbers();
    var s := "6000001";
    assert MatchAt(s, 0).None? by {
      assert s[0..6] == "600000" && s[..2] == "60";
    }
    assert MatchAt(s, 1) == Some(BareForm("000001")) by {
      assert s[1..7] == "000001";
    }
    assert Search(s) == Some(BareForm("000001")) by {
      assert SearchFrom(s, 1) == Some(BareForm("000001"));
    }
    ParseBareMatch(s, "000001");
    assert "000001"[..2] == "00";
  }

  /** Mixed-case letters are no tag: `Sh600000` is read as a bare number from position 2 */
  lemma MixedCaseReadsBare()
    ensures Parse(Str("Sh600000")) == Ok(Code("0", "600000"))
  {
    SampleNumbers();
    var s := "Sh600000";
    assert MatchAt(s, 0).None? by {
      assert s[..2] == "Sh";
      NoNumberAt(s, 0);
    }
    assert MatchAt(s, 1).None? by {
      NoNumberAt(s, 1);
    }
    assert MatchAt(s, 2) == Some(BareForm("600000")) by {
      assert s[2..8] == "600000";
    }
    assert Search(s) == Some(BareForm("600000")) by {
      assert SearchFrom(s, 2) == Some(BareForm("600000"));
      assert SearchFrom(s, 1) == Some(BareForm("600000"));
    }
    ParseBareMatch(s, "600000");
    assert "600000"[..2] == "60";
  }

  /** Cluster 2 is unanchored: the search skips leading text before a suffixed code */
  lemma JunkPrefixSearch()
    ensures Search("xx600000.SH") == Some(SuffixForm("600000", "SH"))
  {
    SampleNumbers();
    var s := "xx600000.SH";
    assert MatchAt(s, 0).None? by {
      assert s[..2] == "xx";
      NoNumberAt(s, 0);
    }
    assert MatchAt(s, 1).None? by {
      NoNumberAt(s, 1);
    }
    assert MatchAt(s, 2) == Some(SuffixForm("600000", "SH")) by {
      assert s[2..8] == "600000" && s[8] == '.' && s[9..11] == "SH";
    }
    assert SearchFrom(s, 2) == Some(SuffixForm("600000", "SH"));
    assert SearchFrom(s, 1) == Some(SuffixForm("600000", "SH"));
  }

  /** Leading text before a suffixed code does not change what it parses to */
  lemma JunkPrefixSkipped()
    ensures Parse(Str("xx600000.SH")) == Ok(Code("0", "600000"))
  {
    JunkPrefixSearch();
    ParseSuffixMatch("xx600000.SH", "600000", "SH");
  }

  /** A number outside the whitelist matches no cluster, so it fails in the search, not in the inference */
  lemma UnlistedNumberHasNoMatch()
    ensures Parse(Str("999999")) == Err(NoMatch)
  {
    var s := "999999";
    assert s[0..6] == s && s[..2] == "99";
    forall q | 0 <= q <= |s| ensures MatchAt(s, q).None? {
    }
  }

  /**
    The number of a tuple may end in a newline, since `$` matches before a
    final newline; such a code is accepted and rendered with the newline.
  */
  lemma TupleNumberWithNewline()
    ensures Parse(Tuple([Str("0"), Str("600000\n")])) == Ok(Code("0", "600000\n"))
    ensures Render(PrefixRenderer, Code("0", "600000\n")) == Ok(Str("SH600000\n"))
  {
    SampleNumbers();
    assert "600000\n"[..6] == "600000";
    assert "SH" + "600000\n" == "SH600000\n";
  }

  /** ... and the rendered text parses back without the newline, so that code does not survive a round trip */
  lemma NewlineDroppedOnReparse()
    ensures Parse(Str("SH600000\n")) == Ok(Code("0", "600000"))
  {
    SampleNumbers();
    assert "SH600000\n" == "SH" + "600000" + "\n";
    ParsePrefixed("SH", "600000", "\n");
  }

  // ---------------------------------------------------------------------------
  // Renderers and round trips

  /** A prefixed template selects the prefix renderer, whatever follows the number */
  lemma {:induction false} PrefixedTemplate(tag: string, num: string, rest: string)
    requires IsCodeNum(num) && tag in ExchTags
    ensures MakeRenderer(Str(tag + num + rest)) == Ok(PrefixRenderer)
  {
    SearchPrefixed(tag, num, rest);
  }

  lemma {:induction false} SuffixedTemplate(num: string, tag: string)
    requires IsCodeNum(num) && tag in ExchTags
    ensures MakeRenderer(Str(num + "." + tag)) == Ok(SuffixRenderer)
  {
    assert num + "." + tag == num + ['.'] + tag + "";
    SearchSuffixed(num, '.', tag, "");
  }

  lemma {:induction false} BareTemplate(num: string)
    requires IsCodeNum(num)
    ensures MakeRenderer(Str(num)) == Ok(BareRenderer)
  {
    SearchBare(num);
  }

  lemma {:induction false} TupleTemplates(num: string)
    requires IsCodeNum(num)
    ensures MakeRenderer(AsTuple(Code("0", num))) == MakeRenderer(AsTuple(Code("1", num))) == Ok(Identity)
  {
    assert num[..6] == num;
  }

  /** The renderer depends only on which layout the template has, not on its digits or letter case */
  lemma {:induction false} RendererByLayout(num: string, tag: string, rest: string)
    requires IsCodeNum(num) && tag in ExchTags
    ensures MakeRenderer(Str(tag + num + rest)) == Ok(PrefixRenderer)
    ensures MakeRenderer(Str(num + "." + tag)) == Ok(SuffixRenderer)
    ensures MakeRenderer(Str(num)) == Ok(BareRenderer)
    ensures MakeRenderer(AsTuple(Code("0", num))) == MakeRenderer(AsTuple(Code("1", num))) == Ok(Identity)
  {
    PrefixedTemplate(tag, num, rest);
    SuffixedTemplate(num, tag);
    BareTemplate(num);
    TupleTemplates(num);
  }

  /** The tuple template `('0', '600000')` selects the identity renderer */
  lemma TupleTemplate()
    ensures MakeRenderer(AsTuple(Code("0", "600000"))) == Ok(Identity)
  {
    SampleNumbers();
    TupleTemplates("600000");
  }

  lemma {:induction false} TagOfMkt(c: Code)
    requires IsMkt(c.mkt)
    ensures c.mkt in MktExch && MktExch[c.mkt] in ExchTags && ExchMkt[MktExch[c.mkt]] == c.mkt
  {
  }

  /** Prefix layout: rendering a canonical code and parsing the text gives the code back */
  lemma {:induction false} PrefixRoundTrip(c: Code)
    requires ValidCode(c)
    ensures Render(PrefixRenderer, c).Ok? && Parse(Render(PrefixRenderer, c).value) == Ok(c)
  {
    TagOfMkt(c);
    assert MktExch[c.mkt] + c.num == MktExch[c.mkt] + c.num + "";
    ParsePrefixed(MktExch[c.mkt], c.num, "");
  }

  /** Suffix layout: rendering a canonical code and parsing the text gives the code back */
  lemma {:induction false} SuffixRoundTrip(c: Code)
    requires ValidCode(c)
    ensures Render(SuffixRenderer, c).Ok? && Parse(Render(SuffixRenderer, c).value) == Ok(c)
  {
    TagOfMkt(c);
    assert c.num + "." + MktExch[c.mkt] == c.num + ['.'] + MktExch[c.mkt] + "";
    ParseSuffixed(c.num, '.', MktExch[c.mkt], "");
  }

  /** Tuple layout: the identity renderer returns the tuple, which parses back to the code */
  lemma {:induction false} TupleRoundTrip(c: Code)
    requires ValidCode(c)
    ensures Render(Identity, c) == Ok(AsTuple(c)) && Parse(AsTuple(c)) == Ok(c)
  {
    assert c.num[..6] == c.num;
  }

  /**
    Bare layout drops the exchange: the round trip holds exactly when the
    code's exchange is the one its number's prefix implies.
  */
  lemma {:induction false} BareRoundTrip(c: Code)
    requires ValidCode(c)
    ensures Render(BareRenderer, c) == Ok(Str(c.num))
    ensures Parse(Str(c.num)) == Ok(c) <==>
      (c.mkt == "1" <==> c.num[..2] in {"00", "30", "15"})
  {
    ParseBare(c.num);
  }

  // ---------------------------------------------------------------------------
  // Whole calls

  /** Parsed codes always render, unless the renderer is None */
  lemma {:induction false} ParsedCodesRender(f: Renderer, cs: seq<Code>)
    requires forall i :: 0 <= i < |cs| ==> IsMkt(cs[i].mkt)
    requires f != NoRenderer
    ensures forall i :: 0 <= i < |cs| ==> Render(f, cs[i]).Ok?
  {
  }

  /** When a call succeeds: every code parses, the template is accepted, and a renderer exists if any code does */
  lemma {:induction false} ConvertSucceeds(codes: PyValue, formatlike: PyValue)
    ensures Convert(codes, formatlike).Ok? <==>
      && (forall i :: 0 <= i < |CodesOf(codes)| ==> Parse(CodesOf(codes)[i]).Ok?)
      && MakeRenderer(formatlike).Ok?
      && (|CodesOf(codes)| > 0 ==> MakeRenderer(formatlike).value != NoRenderer)
  {
    var items := CodesOf(codes);
    var vp := VParse(List(items));
    if vp.Ok? && MakeRenderer(formatlike).Ok? {
      var f := MakeRenderer(formatlike).value;
      var parsed := vp.value.codes;
      if f != NoRenderer {
        ParsedCodesRender(f, parsed);
      } else if |items| > 0 {
        assert Render(f, parsed[0]).Err?;
      }
    }
  }

  /** What a successful call returns: each code rendered in turn, bare when there is exactly one */
  lemma {:induction false} ConvertRenders(codes: PyValue, formatlike: PyValue)
    requires Convert(codes, formatlike).Ok?
    ensures |CodesOf(codes)| == 1 ==>
      Convert(codes, formatlike).value == Render(MakeRenderer(formatlike).value, Parse(CodesOf(codes)[0]).value).value
    ensures |CodesOf(codes)| != 1 ==>
      && Convert(codes, formatlike).value.List?
      && |Convert(codes, formatlike).value.elems| == |CodesOf(codes)|
      && forall i :: 0 <= i < |CodesOf(codes)| ==>
           Convert(codes, formatlike).value.elems[i] == Render(MakeRenderer(formatlike).value, Parse(CodesOf(codes)[i]).value).value
  {
    var items := CodesOf(codes);
    var parsed := VParse(List(items)).value.codes;
    var f := MakeRenderer(formatlike).value;
    var outs := MapAll(c => Render(f, c), parsed).value;
    assert forall i :: 0 <= i < |items| ==> outs[i] == Render(f, Parse(items[i]).value).value;
  }

  /**
    A call succeeds exactly when every code parses, the template is
    accepted and, if there is any code, the renderer is callable; its result
    is the rendered codes in order, bare when there is exactly one.
  */
  lemma {:induction false} ConvertElementwise(codes: PyValue, formatlike: PyValue)
    ensures Convert(codes, formatlike).Ok? <==>
      && (forall i :: 0 <= i < |CodesOf(codes)| ==> Parse(CodesOf(codes)[i]).Ok?)
      && MakeRenderer(formatlike).Ok?
      && (|CodesOf(codes)| > 0 ==> MakeRenderer(formatlike).value != NoRenderer)
    ensures Convert(codes, formatlike).Ok? && |CodesOf(codes)| == 1 ==>
      Convert(codes, formatlike).value == Render(MakeRenderer(formatlike).value, Parse(CodesOf(codes)[0]).value).value
    ensures Convert(codes, formatlike).Ok? && |CodesOf(codes)| != 1 ==>
      && Convert(codes, formatlike).value.List?
      && |Convert(codes, formatlike).value.elems| == |CodesOf(codes)|
      && forall i :: 0 <= i < |CodesOf(codes)| ==>
           Convert(codes, formatlike).value.elems[i] == Render(MakeRenderer(formatlike).value, Parse(CodesOf(codes)[i]).value).value
  {
    ConvertSucceeds(codes, formatlike);
    if Convert(codes, formatlike).Ok? {
      ConvertRenders(codes, formatlike);
    }
  }

  /** A call on one code: parse it, build the renderer, render */
  lemma {:induction false} ConvertOne(x: PyValue, formatlike: PyValue, c: Code, f: Renderer, out: PyValue)
    requires x.Str? || x.Tuple?
    requires Parse(x) == Ok(c) && MakeRenderer(formatlike) == Ok(f) && Render(f, c) == Ok(out)
    ensures Convert(x, formatlike) == Ok(out)
  {
    ConvertElementwise(x, formatlike);
  }

  /** A call on a list of other than one code: each code parsed and rendered, in order, into a list */
  lemma {:induction false} ConvertList(xs: seq<PyValue>, formatlike: PyValue, cs: seq<Code>, f: Renderer, outs: seq<PyValue>)
    requires |xs| != 1 && |cs| == |xs| && |outs| == |xs|
    requires forall i :: 0 <= i < |xs| ==> Parse(xs[i]) == Ok(cs[i])
    requires MakeRenderer(formatlike) == Ok(f)
    requires forall i :: 0 <= i < |xs| ==> Render(f, cs[i]) == Ok(outs[i])
    ensures Convert(List(xs), formatlike) == Ok(List(outs))
  {
    assert |xs| > 0 ==> Render(f, cs[0]).Ok?;
    ConvertSucceeds(List(xs), formatlike);
    ConvertRenders(List(xs), formatlike);
    assert Convert(List(xs), formatlike).value.elems == outs;
  }

  /** A call aborts with the error of the first code that fails, whatever the template */
  lemma {:induction false} ConvertFailsFast(codes: PyValue, formatlike: PyValue, i: nat)
    requires i < |CodesOf(codes)| && Parse(CodesOf(codes)[i]).Err?
    requires forall j :: 0 <= j < i ==> Parse(CodesOf(codes)[j]).Ok?
    ensures Convert(codes, formatlike) == Err(Parse(CodesOf(codes)[i]).error)
  {
    var items := CodesOf(codes);
    var parsed := MapAll(Parse, items);
    assert parsed.Err?;
    var k :| 0 <= k < |items| && Parse(items[k]) == Err(parsed.error) && forall j :: 0 <= j < k ==> Parse(items[j]).Ok?;
    assert k == i;
  }

  /** A string or tuple is one code, never split; it converts exactly as a one-element list does */
  lemma {:induction false} ScalarIsOneCode(x: PyValue, formatlike: PyValue)
    requires x.Str? || x.Tuple?
    ensures CodesOf(x) == CodesOf(List([x])) == [x]
    ensures Convert(x, formatlike) == Convert(List([x]), formatlike)
    ensures Convert(x, formatlike).Ok? ==> !Convert(x, formatlike).value.List?
  {
  }

  /** An empty list converts to an empty list, once the template itself is accepted */
  lemma {:induction false} EmptyBatch(formatlike: PyValue)
    ensures Convert(List([]), formatlike) ==
      if MakeRenderer(formatlike).Ok? then Ok(List([])) else Err(MakeRenderer(formatlike).error)
  {
  }

  /**
    Round trip through whole calls: converting a canonical tuple with a
    prefix, suffix or tuple template and converting the result back with a
    tuple template gives the tuple again.
  */
  lemma {:induction false} ConvertRoundTrip(c: Code, template: PyValue, back: PyValue)
    requires ValidCode(c)
    requires MakeRenderer(template).Ok? && MakeRenderer(template).value in {PrefixRenderer, SuffixRenderer, Identity}
    requires MakeRenderer(back) == Ok(Identity)
    ensures Convert(AsTuple(c), template).Ok?
    ensures Convert(Convert(AsTuple(c), template).value, back) == Ok(AsTuple(c))
  {
    var f := MakeRenderer(template).value;
    TupleRoundTrip(c);
    var out := Render(f, c).value;
    assert Parse(out) == Ok(c) by {
      if f == PrefixRenderer {
        PrefixRoundTrip(c);
      } else if f == SuffixRenderer {
        SuffixRoundTrip(c);
      }
    }
    ConvertOne(AsTuple(c), template, c, f, out);
    ConvertOne(out, back, c, Identity, AsTuple(c));
  }
}
