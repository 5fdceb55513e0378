/**
  Whole calls on the example values of zcodeparse.py: the docstring, the
  `__main__` block, and the layouts a caller passes as templates.
*/
module ZCodeParseExamples {

  import opened CodePattern
  import opened ZCodeParse
  import opened ZCodeParseProperties

  /** The documented template `600000.SH` selects the suffixed layout */
  lemma SuffixTemplate()
    ensures MakeRenderer(Str("600000.SH")) == Ok(SuffixRenderer)
  {
    SampleNumbers();
    assert "600000.SH" == "600000" + "." + "SH";
    SuffixedTemplate("600000", "SH");
  }

  // ---------------------------------------------------------------------------
  // The sample codes, each parsed on its own

  lemma Parses601901SH()
    ensures Parse(Str("601901.SH")) == Ok(Code("0", "601901"))
  {
    SampleNumbers();
    assert "601901.SH" == "601901" + ['.'] + "SH" + "";
    ParseSuffixed("601901", '.', "SH", "");
  }

  lemma Parses000002SZ()
    ensures Parse(Str("000002.SZ")) == Ok(Code("1", "000002"))
  {
    SampleNumbers();
    assert "000002.SZ" == "000002" + ['.'] + "SZ" + "";
    ParseSuffixed("000002", '.', "SZ", "");
  }

  /** A bare 00 number is inferred to be Shenzhen */
  lemma Parses000009()
    ensures Parse(Str("000009")) == Ok(Code("1", "000009"))
  {
    SampleNumbers();
    ParseBare("000009");
    assert "000009"[..2] == "00";
  }

  lemma ParsesSZ000001()
    ensures Parse(Str("SZ000001")) == Ok(Code("1", "000001"))
  {
    SampleNumbers();
    assert "SZ000001" == "SZ" + "000001" + "";
    ParsePrefixed("SZ", "000001", "");
  }

  lemma Parses600000SH()
    ensures Parse(Str("600000.SH")) == Ok(Code("0", "600000"))
  {
    SampleNumbers();
    assert "600000.SH" == "600000" + ['.'] + "SH" + "";
    ParseSuffixed("600000", '.', "SH", "");
  }

  /** A tuple code parses to itself */
  lemma Parses1002356()
    ensures Parse(AsTuple(Code("1", "002356"))) == Ok(Code("1", "002356"))
  {
    SampleNumbers();
    assert "002356"[..6] == "002356";
  }

  /** The codes of the class docstring, each parsed on its own */
  lemma Parses600891()
    ensures Parse(Str("600891")) == Ok(Code("0", "600891"))
  {
    assert "600891"[..2] == "60";
    ParseBare("600891");
  }

  lemma Parses600001SH()
    ensures Parse(Str("600001.SH")) == Ok(Code("0", "600001"))
  {
    assert "600001"[..2] == "60";
    assert "600001.SH" == "600001" + ['.'] + "SH" + "";
    ParseSuffixed("600001", '.', "SH", "");
  }

  lemma Parses0600019()
    ensures Parse(Tuple([Str("0"), Str("600019")])) == Ok(Code("0", "600019"))
  {
    assert "600019"[..2] == "60";
    assert "600019"[..6] == "600019";
  }

  /** Suffixed rendering of the docstring's Shanghai codes */
  lemma RendersDocstringCodes()
    ensures Render(SuffixRenderer, Code("0", "600891")) == Ok(Str("600891.SH"))
    ensures Render(SuffixRenderer, Code("0", "600001")) == Ok(Str("600001.SH"))
    ensures Render(SuffixRenderer, Code("0", "600019")) == Ok(Str("600019.SH"))
  {
    assert "600891" + "." + "SH" == "600891.SH";
    assert "600001" + "." + "SH" == "600001.SH";
    assert "600019" + "." + "SH" == "600019.SH";
  }

  /** Suffixed rendering of the Shenzhen sample codes */
  lemma RendersSuffixedSZ()
    ensures Render(SuffixRenderer, Code("1", "000002")) == Ok(Str("000002.SZ"))
    ensures Render(SuffixRenderer, Code("1", "000001")) == Ok(Str("000001.SZ"))
    ensures Render(SuffixRenderer, Code("1", "000009")) == Ok(Str("000009.SZ"))
  {
    assert "000002" + "." + "SZ" == "000002.SZ";
    assert "000001" + "." + "SZ" == "000001.SZ";
    assert "000009" + "." + "SZ" == "000009.SZ";
  }

  lemma RendersSuffixedSH()
    ensures Render(SuffixRenderer, Code("0", "600000")) == Ok(Str("600000.SH"))
  {
    assert "600000" + "." + "SH" == "600000.SH";
  }

  // ---------------------------------------------------------------------------
  // Whole calls

  /** Two codes that parse and render one by one convert together, in order */
  lemma {:induction false} ConvertPair(xs: seq<PyValue>, template: PyValue, cs: seq<Code>, f: Renderer, outs: seq<PyValue>)
    requires |xs| == 2 && |cs| == 2 && |outs| == 2
    requires Parse(xs[0]) == Ok(cs[0]) && Parse(xs[1]) == Ok(cs[1])
    requires MakeRenderer(template) == Ok(f)
    requires Render(f, cs[0]) == Ok(outs[0]) && Render(f, cs[1]) == Ok(outs[1])
    ensures Convert(List(xs), template) == Ok(List(outs))
  {
    forall i | 0 <= i < 2
      ensures Parse(xs[i]) == Ok(cs[i]) && Render(f, cs[i]) == Ok(outs[i])
    {
      if i == 0 {
      } else {
        assert i == 1;
      }
    }
    ConvertList(xs, template, cs, f, outs);
  }

  /** Four codes that parse and render one by one convert together, in order */
  lemma {:induction false} ConvertFour(xs: seq<PyValue>, template: PyValue, cs: seq<Code>, f: Renderer, outs: seq<PyValue>)
    requires |xs| == 4 && |cs| == 4 && |outs| == 4
    requires Parse(xs[0]) == Ok(cs[0]) && Parse(xs[1]) == Ok(cs[1]) && Parse(xs[2]) == Ok(cs[2]) && Parse(xs[3]) == Ok(cs[3])
    requires MakeRenderer(template) == Ok(f)
    requires Render(f, cs[0]) == Ok(outs[0]) && Render(f, cs[1]) == Ok(outs[1])
    requires Render(f, cs[2]) == Ok(outs[2]) && Render(f, cs[3]) == Ok(outs[3])
    ensures Convert(List(xs), template) == Ok(List(outs))
  {
    forall i | 0 <= i < 4
      ensures Parse(xs[i]) == Ok(cs[i]) && Render(f, cs[i]) == Ok(outs[i])
    {
      if i == 0 {
      } else if i == 1 {
      } else if i == 2 {
      } else {
        assert i == 3;
      }
    }
    ConvertList(xs, template, cs, f, outs);
  }

  /** Five codes that parse and render one by one convert together, in order */
  lemma {:induction false} ConvertFive(xs: seq<PyValue>, template: PyValue, cs: seq<Code>, f: Renderer)
    requires |xs| == 5 && |cs| == 5
    requires Parse(xs[0]) == Ok(cs[0]) && Parse(xs[1]) == Ok(cs[1]) && Parse(xs[2]) == Ok(cs[2])
    requires Parse(xs[3]) == Ok(cs[3]) && Parse(xs[4]) == Ok(cs[4])
    requires MakeRenderer(template) == Ok(f) && f == Identity
    ensures Convert(List(xs), template) == Ok(List([AsTuple(cs[0]), AsTuple(cs[1]), AsTuple(cs[2]), AsTuple(cs[3]), AsTuple(cs[4])]))
  {
    var outs := [AsTuple(cs[0]), AsTuple(cs[1]), AsTuple(cs[2]), AsTuple(cs[3]), AsTuple(cs[4])];
    forall i | 0 <= i < 5
      ensures Parse(xs[i]) == Ok(cs[i]) && Render(f, cs[i]) == Ok(outs[i])
    {
      if i == 0 {
      } else if i == 1 {
      } else if i == 2 {
      } else if i == 3 {
      } else {
        assert i == 4;
      }
    }
    ConvertList(xs, template, cs, f, outs);
  }

  /**
    The class docstring's example: four codes in four layouts converted with
    the template `600000.SH` (any suffixed template), in order.
  */
  lemma DocstringExample(template: PyValue)
    requires MakeRenderer(template) == Ok(SuffixRenderer)
    ensures Convert(List([Str("600891"), Str("SZ000001"), Str("600001.SH"), Tuple([Str("0"), Str("600019")])]), template)
         == Ok(List([Str("600891.SH"), Str("000001.SZ"), Str("600001.SH"), Str("600019.SH")]))
  {
    Parses600891();
    ParsesSZ000001();
    Parses600001SH();
    Parses0600019();
    RendersDocstringCodes();
    RendersSuffixedSZ();
    ConvertFour([Str("600891"), Str("SZ000001"), Str("600001.SH"), Tuple([Str("0"), Str("600019")])], template,
                [Code("0", "600891"), Code("1", "000001"), Code("0", "600001"), Code("0", "600019")], SuffixRenderer,
                [Str("600891.SH"), Str("000001.SZ"), Str("600001.SH"), Str("600019.SH")]);
  }

  /** A mixed list keeps its order and is rendered in a suffixed template's layout, such as `600000.SH` */
  lemma MixedListToSuffixed(template: PyValue)
    requires MakeRenderer(template) == Ok(SuffixRenderer)
    ensures Convert(List([Str("000002.SZ"), Str("SZ000001")]), template)
         == Ok(List([Str("000002.SZ"), Str("000001.SZ")]))
  {
    Parses000002SZ();
    ParsesSZ000001();
    RendersSuffixedSZ();
    ConvertPair([Str("000002.SZ"), Str("SZ000001")], template, [Code("1", "000002"), Code("1", "000001")],
                SuffixRenderer, [Str("000002.SZ"), Str("000001.SZ")]);
  }

  /** The second `__main__` call: one suffixed code with the tuple template gives its canonical tuple, bare */
  lemma SuffixedToTuple()
    ensures Convert(Str("600000.SH"), AsTuple(Code("0", "600000"))) == Ok(AsTuple(Code("0", "600000")))
  {
    Parses600000SH();
    TupleTemplate();
    ConvertOne(Str("600000.SH"), AsTuple(Code("0", "600000")), Code("0", "600000"), Identity, AsTuple(Code("0", "600000")));
  }

  /** A bare Shenzhen number gets its exchange inferred and is written in a suffixed template's layout */
  lemma BareToSuffixed(template: PyValue)
    requires MakeRenderer(template) == Ok(SuffixRenderer)
    ensures Convert(Str("000009"), template) == Ok(Str("000009.SZ"))
  {
    Parses000009();
    RendersSuffixedSZ();
    ConvertOne(Str("000009"), template, Code("1", "000009"), SuffixRenderer, Str("000009.SZ"));
  }

  /** A tuple code converted with a bare template keeps only the number */
  lemma TupleToBare()
    ensures Convert(AsTuple(Code("1", "002356")), Str("600000")) == Ok(Str("002356"))
  {
    SampleNumbers();
    Parses1002356();
    BareTemplate("600000");
    ConvertOne(AsTuple(Code("1", "002356")), Str("600000"), Code("1", "002356"), BareRenderer, Str("002356"));
  }

  /** A number off the whitelist aborts the call with the search failure, whatever the template */
  lemma UnlistedNumberAborts(template: PyValue)
    ensures Convert(Str("999999"), template) == Err(NoMatch)
  {
    UnlistedNumberHasNoMatch();
    ConvertFailsFast(Str("999999"), template, 0);
  }

  /** A one-element list returns its element bare, exactly as the scalar does */
  lemma OneElementListIsBare(template: PyValue)
    requires MakeRenderer(template) == Ok(SuffixRenderer)
    ensures Convert(List([Str("600000.SH")]), template) == Ok(Str("600000.SH"))
  {
    Parses600000SH();
    RendersSuffixedSH();
    ConvertOne(Str("600000.SH"), template, Code("0", "600000"), SuffixRenderer, Str("600000.SH"));
    ScalarIsOneCode(Str("600000.SH"), template);
  }

  /** The `__main__` call: five codes in four layouts converted with a tuple template, in order */
  lemma MainExample(template: PyValue)
    requires MakeRenderer(template) == Ok(Identity)
    ensures Convert(
              List([Str("601901.SH"), Str("000002.SZ"), Str("000009"), Str("SZ000001"), AsTuple(Code("1", "002356"))]),
              template)
         == Ok(List([AsTuple(Code("0", "601901")), AsTuple(Code("1", "000002")), AsTuple(Code("1", "000009")),
                     AsTuple(Code("1", "000001")), AsTuple(Code("1", "002356"))]))
  {
    Parses601901SH();
    Parses000002SZ();
    Parses000009();
    ParsesSZ000001();
    Parses1002356();
    ConvertFive([Str("601901.SH"), Str("000002.SZ"), Str("000009"), Str("SZ000001"), AsTuple(Code("1", "002356"))],
                template,
                [Code("0", "601901"), Code("1", "000002"), Code("1", "000009"), Code("1", "000001"), Code("1", "002356")],
                Identity);
  }
}
