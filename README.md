# zcodeparse in Dafny

A model of the securities-code normaliser `zcodeparse` from `zcodeparse.py`.
It takes a Chinese A-share stock code, or a collection of them, in any of four
layouts:

- exchange-prefixed, `SH600000`;
- exchange-suffixed, `600000.SH`;
- a bare six-digit number, `600000`;
- the canonical pair, `('0', '600000')`.

It parses each code into the internal pair (exchange, number). The exchange is
"0" for Shanghai and "1" for Shenzhen. It then renders every pair in the layout
of a sample "format template" value.

The project has four modules:

- `CodePattern` (`code_pattern.dfy`) is the class attribute `_mode`: three
  regular-expression clusters over a whitelist of two-digit prefixes (00, 30,
  15, 60, 51). It also models how Python's `re.search` runs that pattern. Start
  positions are tried left to right, and the three clusters in order at each
  one. Cluster 1 is anchored by `^` only. Cluster 2 is unanchored, and its
  separator is an unescaped `.` (any character but a newline). Cluster 3 is
  anchored by `$` only, which also matches just before a final newline.
- `ZCodeParse` (`zcodeparse.dfy`) covers `zlist` and the methods of the class:
  - `__parse`, `__vparse`, `_filter_None` and `_infer_exchmkt_bycode`;
  - `__format_reconstructcode`, whose lambdas become the `Renderer` datatype
    plus `Render`;
  - `__call__`, as `Convert`.

  Python values are the `PyValue` datatype: str, bytes, tuple, any other
  iterable, or a non-iterable value. Exceptions are the `Error` datatype, and a
  call that raises returns `Err`.
- `ZCodeParseProperties` (`zcodeparse_properties.dfy`) holds the lemmas that
  relate several operations:
  - what each layout parses to, and that letter case does not matter;
  - the unreachable failure branches;
  - the renderer's independence from the template's digits and case;
  - round trips through every renderer;
  - element-wise processing, fail-fast behaviour and the shape of a call's
    result.
- `ZCodeParseExamples` (`zcodeparse_examples.dfy`) works out whole calls on the
  values of the class docstring and of the `__main__` block.

Behaviour that follows from the code as written:

- A bare number outside the whitelist, such as `999999`, matches no cluster. It
  fails with the AttributeError of `.groups()` on None. It never reaches the
  exchange inference, whose "Unknown Code Number." branch cannot be reached.
  The same holds for "Unknown Code Format.", and for the IndexError in
  `_filter_None` and the KeyError in `_mapping_exch_mkt`.
- A one-element list returns its element bare, exactly as a single code does.
- An empty list returns an empty list. The template is still evaluated, so an
  invalid template still raises.
- A template that is neither text nor a tuple makes the renderer None. That
  raises a TypeError only when there is at least one code.
- Errors come in this order: the codes are parsed first, then the template is
  examined, then the codes are rendered.
- Because `$` also matches before a final newline, the tuple `('0', '600000\n')`
  is accepted. It renders as `SH600000\n`, which parses back as
  `('0', '600000')` (`TupleNumberWithNewline`, `NewlineDroppedOnReparse`).

## Model

| member | source | states |
|---|---|---|
| CodePattern.IsWholeCodeNum | zcodeparse.py:78 | `^(NUM)$` accepts a whitelisted six-digit number, possibly followed by one final newline, and nothing longer |
| CodePattern.ClustersExclusive | zcodeparse.py:53-55 | At most one of the three clusters can match at any start position, so their order within a position never decides the result |
| CodePattern.MatchAt | zcodeparse.py:53-55 | At one start position, a match exists exactly when one of the three clusters matches there, and the match is well-formed (an exchange tag and/or a whitelisted number) |
| CodePattern.Groups | zcodeparse.py:84 | `.groups()` has five entries; groups 1-2 are present exactly for cluster 1, groups 3-4 exactly for cluster 2 and group 5 exactly for cluster 3 |
| CodePattern.SearchFrom | zcodeparse.py:84 | Searching from position p finds nothing exactly when no start position from p on matches any cluster |
| CodePattern.SearchFromLeftmost | zcodeparse.py:84 | A match found from p is the match at the leftmost start position that matches |
| CodePattern.Search | zcodeparse.py:84 | `_mode.search` fails exactly when no start position matches; otherwise it returns the well-formed match of the first cluster at the leftmost matching position |
| ZCodeParse.ZList | zcodeparse.py:4-18 | A non-iterable, a str or a bytes value becomes a one-element list; any other iterable becomes the list of its elements |
| ZCodeParse.Head2 | zcodeparse.py:137 | `code_num[:2]` is a prefix of the text, of length two or the whole of a shorter text |
| ZCodeParse.InferExchMkt | zcodeparse.py:135-142 | Prefixes 00/30/15 give "SZ" and 60/51 give "SH", each direction an if-and-only-if; any other prefix raises "Unknown Code Number."; a whitelisted number always gets an exchange tag |
| ZCodeParse.Present | zcodeparse.py:149-150 | The filtered enumeration pairs every kept value with one position |
| ZCodeParse.PresentExactly | zcodeparse.py:149-150 | The enumerate-and-filter keeps exactly the non-None groups, each paired with its own position, with the positions in increasing order |
| ZCodeParse.FilterNone | zcodeparse.py:144-151 | `_filter_None` fails (IndexError) exactly when every group is None; otherwise it returns the non-None values and their increasing positions, with every non-None group included |
| ZCodeParse.GroupPositions | zcodeparse.py:84-95 | For every match, `_filter_None` succeeds with positions (0,1), (2,3) or (4,) according to the cluster, so the "Unknown Code Format." branch is unreachable |
| ZCodeParse.ExchTagsMapped | zcodeparse.py:57-58 | Every tag the pattern admits is in `_mapping_exch_mkt` and maps to "0" or "1"; it maps to "0" exactly for SH/sh |
| ZCodeParse.ParseText | zcodeparse.py:83-97 | Text parses exactly when the search matches; the only failure is the no-match error; a parsed code has exchange "0"/"1" and a whitelisted number |
| ZCodeParse.ParseTuple | zcodeparse.py:74-81 | A tuple is accepted exactly when it has two elements, the first is '0' or '1', and the second is text that `^(NUM)$` matches; it is then returned unchanged; a wrong length or exchange fails the assertion; a second element that is not text raises a TypeError; text that `^(NUM)$` does not match raises "Unkown Code Num" (zcodeparse.py:81) with that text |
| ZCodeParse.Parse | zcodeparse.py:70-100 | Every parsed code has exchange "0"/"1"; text parses exactly when the search matches, to a whitelisted number; a tuple is returned unchanged; bytes raise a TypeError; any other type raises "Code type should be Tuple or Str" |
| ZCodeParse.MapAll | zcodeparse.py:109 | `list(map(f, xs))` succeeds exactly when f succeeds on every element, and then gives f's results in order; otherwise it fails with the error of the first element that fails |
| ZCodeParse.VParse | zcodeparse.py:102-109 | A str, bytes or tuple is parsed as one code; any other iterable is parsed element by element, in order, and fails if any element fails; a non-iterable raises a TypeError |
| ZCodeParse.MakeRenderer | zcodeparse.py:111-133 | A text template gives the renderer of the cluster it matched (and fails exactly when nothing matches); a tuple template gives the identity exactly when it is a valid tuple code; bytes raise; any other template gives None |
| ZCodeParse.Render | zcodeparse.py:122-133 | The prefix renderer gives "SH"/"SZ" (always upper case, "SH" exactly for "0") followed by the number; the suffix renderer gives the number, a dot and "SH"/"SZ"; the bare renderer gives the number; the identity gives the tuple; calling None fails |
| ZCodeParse.CodesOf | zcodeparse.py:155-157 | A str, bytes or tuple is one code and is never split; the elements of any other iterable are the codes; a non-iterable is one code |
| ZCodeParse.Convert | zcodeparse.py:153-161 | A successful call returns a list exactly when there is not exactly one code; every code parsed and the template was accepted |
| ZCodeParseProperties.CodeNumIsNotTag | zcodeparse.py:53-54 | A whitelisted number never reads as an exchange tag |
| ZCodeParseProperties.NoNumberAt | zcodeparse.py:54-55 | Clusters 2 and 3 cannot start at a character that is not a digit |
| ZCodeParseProperties.SearchPrefixed | zcodeparse.py:53 | A tag followed by a whitelisted number is a cluster-1 match, whatever text follows |
| ZCodeParseProperties.SearchSuffixed | zcodeparse.py:54 | A whitelisted number, any separator but a newline, then a tag is a cluster-2 match, whatever text follows |
| ZCodeParseProperties.SearchBare | zcodeparse.py:55 | A whitelisted number alone is a cluster-3 match |
| ZCodeParseProperties.ExchangeSymbolCase | zcodeparse.py:57-58 | SH and sh both map to "0"; SZ and sz both map to "1" |
| ZCodeParseProperties.ParsePrefixed | zcodeparse.py:84-97 | A prefixed code parses to the tag's exchange and its number |
| ZCodeParseProperties.ParseSuffixed | zcodeparse.py:84-97 | A suffixed code with any separator parses to the tag's exchange and its number |
| ZCodeParseProperties.ParsePrefixMatch | zcodeparse.py:84-97 | Text whose search ends in cluster 1 parses to the tag's exchange and the number, wherever the text goes on |
| ZCodeParseProperties.ParseSuffixMatch | zcodeparse.py:84-97 | Text whose search ends in cluster 2 parses to the tag's exchange and the number, wherever in the text the match starts |
| ZCodeParseProperties.ParseBareMatch | zcodeparse.py:91-97 | Text whose search ends in cluster 3 parses to Shenzhen exactly for a 00/30/15 number and to Shanghai exactly for a 60/51 number |
| ZCodeParseProperties.ParseBare | zcodeparse.py:91-97 | A bare whitelisted number parses to itself, with its exchange inferred from its prefix (in both directions) |
| ZCodeParseProperties.CaseInsensitive | zcodeparse.py:53-58 | In both lettered layouts, SH/sh give "0" and SZ/sz give "1" |
| ZCodeParseProperties.TextFailsOnlyWithoutMatch | zcodeparse.py:84-95 | Text fails to parse exactly when no start position matches any cluster, and then only with the no-match error |
| ZCodeParseProperties.SampleNumbers | zcodeparse.py:165-170 | The sample numbers of the `__main__` block are on the whitelist |
| ZCodeParseProperties.TrailingTextIgnored | zcodeparse.py:53 | `SH600000XYZ` parses to ('0','600000'), since cluster 1 has no end anchor |
| ZCodeParseProperties.AnySeparator | zcodeparse.py:54 | `600000-SH` parses to ('0','600000'), since the separator is an unescaped dot |
| ZCodeParseProperties.JunkPrefixSearch | zcodeparse.py:84 | The search in `xx600000.SH` skips the two leading characters and finds a cluster-2 match at position 2 |
| ZCodeParseProperties.JunkPrefixSkipped | zcodeparse.py:84-97 | `xx600000.SH` parses to ('0','600000'), since cluster 2 is not anchored at the start |
| ZCodeParseProperties.LastSixDigits | zcodeparse.py:55 | `6000001` parses to ('1','000001'): cluster 3 reads the last six digits and infers Shenzhen |
| ZCodeParseProperties.MixedCaseReadsBare | zcodeparse.py:53-55 | `Sh600000` is not a prefixed code; it parses through cluster 3 at position 2 to ('0','600000') |
| ZCodeParseProperties.UnlistedNumberHasNoMatch | zcodeparse.py:84 | `999999` fails with the no-match error, not with the inference error |
| ZCodeParseProperties.TupleNumberWithNewline | zcodeparse.py:78-79 | The tuple ('0', '600000\n') is accepted unchanged and renders with the prefix renderer as `SH600000\n` |
| ZCodeParseProperties.NewlineDroppedOnReparse | zcodeparse.py:53 | `SH600000\n` parses to ('0','600000'), so the newline of such a tuple is lost on a round trip |
| ZCodeParseProperties.PrefixedTemplate | zcodeparse.py:128-129 | Any prefixed template selects the prefix renderer, whatever follows the number |
| ZCodeParseProperties.SuffixedTemplate | zcodeparse.py:130-131 | Any suffixed template selects the suffix renderer |
| ZCodeParseProperties.BareTemplate | zcodeparse.py:132-133 | Any bare-number template selects the bare renderer |
| ZCodeParseProperties.TupleTemplates | zcodeparse.py:117-122 | Any valid tuple template, of either exchange, selects the identity |
| ZCodeParseProperties.RendererByLayout | zcodeparse.py:117-133 | The renderer depends only on the template's layout, not on its digits, its exchange or its letter case |
| ZCodeParseProperties.TupleTemplate | zcodeparse.py:168 | The template ('0', '600000') selects the identity |
| ZCodeParseProperties.TagOfMkt | zcodeparse.py:57-58 | The renderers' table inverts `_mapping_exch_mkt` on "0" and "1" |
| ZCodeParseProperties.PrefixRoundTrip | zcodeparse.py:129 | Rendering a canonical code in the prefix layout and parsing the text gives the code back |
| ZCodeParseProperties.SuffixRoundTrip | zcodeparse.py:131 | Rendering a canonical code in the suffix layout and parsing the text gives the code back |
| ZCodeParseProperties.TupleRoundTrip | zcodeparse.py:122 | The identity returns a canonical code's tuple, which parses back to the code |
| ZCodeParseProperties.BareRoundTrip | zcodeparse.py:133 | The bare layout drops the exchange; parsing the number gives the code back exactly when the code's exchange is the one the prefix implies |
| ZCodeParseProperties.ParsedCodesRender | zcodeparse.py:160 | Codes with exchange "0"/"1" always render, unless the renderer is None |
| ZCodeParseProperties.ConvertSucceeds | zcodeparse.py:153-161 | A call succeeds exactly when every code parses, the template is accepted and, if there is any code, the renderer is not None |
| ZCodeParseProperties.ConvertRenders | zcodeparse.py:160-161 | A successful call returns each code rendered, in order: bare for exactly one code, otherwise a list of the same length |
| ZCodeParseProperties.ConvertElementwise | zcodeparse.py:153-161 | Both of the above: when a call succeeds, and what it then returns |
| ZCodeParseProperties.ConvertOne | zcodeparse.py:155-161 | A single code that parses and renders converts to its rendering, bare |
| ZCodeParseProperties.ConvertList | zcodeparse.py:157-161 | A list of other than one code, each parsing and rendering, converts to the list of renderings in order |
| ZCodeParseProperties.ConvertFailsFast | zcodeparse.py:109 | A call fails with the error of the first code that fails to parse, whatever the template |
| ZCodeParseProperties.ScalarIsOneCode | zcodeparse.py:155-156 | A str or tuple is one code, never split, and converts exactly as a one-element list does; the result is never a list |
| ZCodeParseProperties.EmptyBatch | zcodeparse.py:157-161 | An empty list converts to an empty list when the template is accepted, and otherwise fails with the template's error |
| ZCodeParseProperties.ConvertRoundTrip | zcodeparse.py:153-161 | Converting a canonical tuple with a prefix, suffix or tuple template, then converting the result back with any valid tuple template, gives the tuple again |
| ZCodeParseExamples.SuffixTemplate | zcodeparse.py:165 | The template `600000.SH` selects the suffix renderer |
| ZCodeParseExamples.Parses601901SH | zcodeparse.py:170 | `601901.SH` parses to ('0','601901') |
| ZCodeParseExamples.Parses000002SZ | zcodeparse.py:170 | `000002.SZ` parses to ('1','000002') |
| ZCodeParseExamples.Parses000009 | zcodeparse.py:170 | `000009` parses to ('1','000009'), with Shenzhen inferred |
| ZCodeParseExamples.ParsesSZ000001 | zcodeparse.py:170 | `SZ000001` parses to ('1','000001') |
| ZCodeParseExamples.Parses1002356 | zcodeparse.py:170 | The tuple ('1','002356') is accepted unchanged |
| ZCodeParseExamples.Parses600000SH | zcodeparse.py:174 | `600000.SH` parses to ('0','600000') |
| ZCodeParseExamples.Parses600891 | zcodeparse.py:42 | `600891` parses to ('0','600891'), with Shanghai inferred |
| ZCodeParseExamples.Parses600001SH | zcodeparse.py:42 | `600001.SH` parses to ('0','600001') |
| ZCodeParseExamples.Parses0600019 | zcodeparse.py:42 | The tuple ('0','600019') is accepted unchanged |
| ZCodeParseExamples.RendersDocstringCodes | zcodeparse.py:42-43 | The docstring's Shanghai codes render in the suffixed layout as `600891.SH`, `600001.SH`, `600019.SH` |
| ZCodeParseExamples.RendersSuffixedSZ | zcodeparse.py:131 | Shenzhen codes render in the suffixed layout with `.SZ` |
| ZCodeParseExamples.RendersSuffixedSH | zcodeparse.py:131 | ('0','600000') renders in the suffixed layout as `600000.SH` |
| ZCodeParseExamples.DocstringExample | zcodeparse.py:40-43 | The docstring's four codes, in four layouts, convert with a suffixed template to `600891.SH`, `000001.SZ`, `600001.SH`, `600019.SH`, in order |
| ZCodeParseExamples.MixedListToSuffixed | zcodeparse.py:157-161 | A two-code list in two layouts converts to both codes in the suffixed layout, in order |
| ZCodeParseExamples.SuffixedToTuple | zcodeparse.py:174 | `600000.SH` with the tuple template gives the bare tuple ('0','600000') |
| ZCodeParseExamples.BareToSuffixed | zcodeparse.py:131-142 | A bare Shenzhen number gets its exchange inferred and is rendered as `000009.SZ` |
| ZCodeParseExamples.TupleToBare | zcodeparse.py:166 | A tuple code with the template `600000` keeps only the number |
| ZCodeParseExamples.UnlistedNumberAborts | zcodeparse.py:84 | A call on `999999` fails with the no-match error, whatever the template |
| ZCodeParseExamples.OneElementListIsBare | zcodeparse.py:161 | A one-element list returns its element bare |
| ZCodeParseExamples.MainExample | zcodeparse.py:170-172 | The `__main__` call converts its five codes with the tuple template to their canonical tuples, in order |

## Left out

- The `with_function_style` decorator and the singleton `__new__` with its
  lazy `re.compile` (zcodeparse.py:20-31, 60-68). They only cache; the model
  treats `zcodeparse` as a plain function.
- `print` in the `__main__` block. It is I/O; the values it prints are the
  subject of `MainExample` and `SuffixedToTuple`.
- Unicode digits: Python's `\d` also matches non-ASCII decimal digits. The
  model admits only the ASCII digits 0-9.
- Bytes: Python 3 raises a TypeError when a str pattern is searched in bytes.
  The model returns that error and does not look inside the bytes.
- Python values are modelled only as far as the normaliser distinguishes them:
  str, bytes, tuple, any other iterable (a list, set or generator, as its
  elements in iteration order), or a non-iterable value. The iteration order of
  unordered collections is not modelled.
- Exception messages: each exception is modelled by its kind (`Error`), not by
  its text.
- Python's `-O` flag, which strips the `assert` statements of the tuple
  branches, is not modelled. The assertions are always checked.
