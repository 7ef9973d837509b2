# ttwidgets tagged-text engine, modelled in Dafny

ttwidgets lets Tk widgets show text marked up with `t` tags, such as
`one <t fg=red b>two</t> <tag bitmap=question />`. Underneath the widget
classes sits a small engine of module-level functions in
`ttwidgets/ttwidgets.py`. These functions touch no Tk state. They:

- cut a tagged text into chunks (`split_tagged_text_into_chunks`);
- read each chunk as a `(tag, attrs, text)` triple (`split_chunk`);
- join the texts into the plain text (`strip_tags`, `is_tagged_text`);
- tokenize an attribute string (`split_attrs`);
- decode it into an options dict, a font dict and a case (`parse_tag_attrs`);
- encode such a triple back into attribute text (`gen_tag_attrs`);
- translate option names to and from their 1–3 letter aliases (`alias`, `unalias`);
- quote and unquote attribute values;
- convert, pare and split the dicts involved;
- re-wrap a tagged text to a column width, carrying each new line break back
  into the chunk it belongs to (`wrap_tagged_text`).

The model follows the source's own structure, one Dafny module per concern:

| module | file | models |
|---|---|---|
| `Base` | base.dfy | `Option`, `Result`, the attribute `Value` (str, int or None) and the exceptions the engine raises |
| `Strs` | strs.dfy | the Python string behaviour the engine relies on: `isspace`, `lower`, slicing, `in`, `replace`, `strip`, `split`, `str(int)`, `int(str)` |
| `Dicts` | dicts.dfy | insertion-ordered dicts as association lists, with `d[k] = v`, `get`, `pop` and `update` |
| `Aliases` | aliases.dfy | the alias table, its inverse, `alias` and `unalias` |
| `Quoting` | quoting.dfy | `quote`, `unquote` |
| `Tokenizer` | tokenizer.dfy | `split_attrs` |
| `Decode` | decode.dfy | `parse_tag_attrs` |
| `DictOps` | dictops.dfy | the two `convert_*_dict` functions, `pare_dict`, `_merge_dicts`, `split_dict_into_options_fontattrs_and_case` |
| `Encode` | encode.dfy | `gen_tag_attrs` without a widget |
| `Codec` | codec.dfy | the font-flag tokens the encoder writes, read back by the decoder |
| `Chunks` | chunks.dfy | `Chunk`, `split_tagged_text_into_chunks`, `split_chunk`, `strip_tags`, `is_tagged_text` |
| `ChunkExamples` | chunk_examples.dfy | the documented `split_chunk` examples, worked through the decoder and the encoder |
| `CodecExamples` | codec_examples.dfy | the `gen_tag_attrs` and `parse_tag_attrs` cases of ttwidgets/test/test_ttwidgets.py, worked through the encoder and the decoder |
| `Reflow` | reflow.dfy | `wrap_tagged_text` |
| `ReflowExamples` | reflow_examples.dfy | `wrap_tagged_text` of a text that starts with an empty pair |

Pure code is modelled with functions. Four source functions work by updating
local state in a loop: `split_attrs`, `parse_tag_attrs`, `gen_tag_attrs` and
`wrap_tagged_text`. Each of these is a method with a `while` loop, and each
method's postcondition is that it returns what a recursive specification
function computes. The properties are proved about those functions.

Python's exceptions are the values of `Base.Error`, returned through
`Result`. Regular expressions are replaced by scanners. The scanners take
the same leftmost, lazy or greedy choices as Python's `re` does for the patterns
of the source.

Where the documentation and the code disagree, the model follows the code.
The `alias` docstring lists `FA` as the alias of `family`
(ttwidgets/ttwidgets.py:560), but the table uses `fam`
(ttwidgets/ttwidgets.py:175). The model has `fam`.

## Model

| member | source | states |
|---|---|---|
| Aliases.InverseTable | ttwidgets/ttwidgets.py:381-385 | the inverse table maps an option name to an alias exactly when the table maps that alias to the name; inverting the table loses no entry |
| Aliases.TableShapes | ttwidgets/ttwidgets.py:317-374 | every alias in the table has 1 to 3 characters, and every option name more than 3 |
| Aliases.AliasSymmetry | ttwidgets/ttwidgets.py:317-385 | for every table entry a → k, `unalias(a) == k` and `alias(k) == a` |
| Aliases.AliasUnchanged | ttwidgets/ttwidgets.py:601-608 | `alias` returns names of at most 3 characters and unknown names unchanged; a name it changes becomes an alias of 1 to 3 characters that the table maps back to the name |
| Aliases.UnaliasUnchanged | ttwidgets/ttwidgets.py:1313-1317 | `unalias` returns names of length 0 or more than 3 and unknown names unchanged; an alias it changes becomes an option name of more than 3 characters whose alias it is |
| Aliases.AliasRoundTrip | ttwidgets/ttwidgets.py:601-608 | whatever `alias` changes, `unalias` restores, and whatever `unalias` changes, `alias` restores |
| Quoting.QuoteUnchanged | ttwidgets/ttwidgets.py:1157-1172 | `quote` leaves alone non-strings, strings with no blank that split into at most one word, and strings already enclosed in a matching `'` or `"` |
| Quoting.UnquoteSingle | ttwidgets/ttwidgets.py:1337-1347 | a pair of single quote characters that the value does not contain is stripped by `unquote` |
| Quoting.UnquoteTriple | ttwidgets/ttwidgets.py:1337-1347 | a pair of tripled quote characters is stripped whole |
| Quoting.QuoteRoundTrip | ttwidgets/ttwidgets.py:1157-1172 | whenever `quote(v) != v`, `unquote(quote(v)) == v`, for each of the four delimiters `quote` may choose |
| Quoting.QuoteIdempotent | ttwidgets/ttwidgets.py:1157-1172 | quoting a quoted value changes nothing |
| Quoting.UnquoteUnchanged | ttwidgets/ttwidgets.py:1337-1347 | `unquote` leaves alone non-strings, strings shorter than 2 and strings not enclosed in a matching quote pair |
| Tokenizer.SplitAttrs | ttwidgets/ttwidgets.py:1175-1208 | the reverse loop over the pieces, with its open quote and pending group, returns the fields of `AttrFields`, or Imbalanced Quotes when a quote is still open at the end |
| Tokenizer.NormAroundEquals | ttwidgets/ttwidgets.py:1185-1188 | `key = value`, with any whitespace around the `=`, becomes `key=value` |
| Tokenizer.NormKeepsText | ttwidgets/ttwidgets.py:1185-1188 | removing the whitespace around `=` keeps every other character, in order |
| Tokenizer.ConcatSplitOnSpace | ttwidgets/ttwidgets.py:1192 | the pieces of `re.split(r"(\s+)", s)` join back to `s` |
| Tokenizer.SplitOnSpacePieces | ttwidgets/ttwidgets.py:1192 | every piece is a word or a whitespace run, and holds no quote character the string lacks |
| Tokenizer.ScanQuotedGroup | ttwidgets/ttwidgets.py:1193-1205 | pieces from one that ends in a quote character back to the first earlier piece holding that character become one field, joined in input order |
| Tokenizer.FieldsKeepText | ttwidgets/ttwidgets.py:1175-1208 | the fields hold exactly the non-whitespace characters of the input, in input order |
| Tokenizer.FieldsWithoutQuotes | ttwidgets/ttwidgets.py:1175-1208 | without quote characters `split_attrs` never raises and no field holds whitespace |
| Tokenizer.FieldsOfEmpty | ttwidgets/ttwidgets.py:1192-1208 | `split_attrs("")` is `[""]`: the one empty piece is kept |
| Tokenizer.SelfQuotedWordFails | ttwidgets/ttwidgets.py:1193-1207 | a single word that ends in a quote character, such as `bold="1"`, only opens a quote, and the call raises Imbalanced Quotes |
| Tokenizer.SelfQuotedWordMerges | ttwidgets/ttwidgets.py:1193-1205 | a word ending in a quote character after a word holding that character is merged with it into one field |
| Tokenizer.SplitAttrsOfJoin | ttwidgets/ttwidgets.py:1175-1208 | plain words and `key` + quoted multi-word values, joined by single blanks, come back one field per token, with the whitespace inside the quotes intact |
| Tokenizer.SplitAttrsExample | ttwidgets/ttwidgets.py:1178-1182 | `split_attrs('family="Courier New" size=16 bold')` is `['family="Courier New"', 'size=16', 'bold']` |
| Decode.ParseTagAttrs | ttwidgets/ttwidgets.py:1013-1140 | the loop over the fields, updating the two dicts and the case in turn, returns what `TagAttrs` gives, and raises what the first failing field raises |
| Decode.SplitKeyValue | ttwidgets/ttwidgets.py:1014-1016 | a field with one `=` is cut into its key and its unquoted value |
| Decode.SplitBare | ttwidgets/ttwidgets.py:1017-1018 | a field without `=` is a key with the value None |
| Decode.SplitTooMany | ttwidgets/ttwidgets.py:1015 | a field with two or more `=` raises when its parts are unpacked |
| Decode.NoneSkipped | ttwidgets/ttwidgets.py:1026-1027 | the written value `None` is skipped whatever the key |
| Decode.ColorField | ttwidgets/ttwidgets.py:1028-1034 | bg, fg, background and foreground, in any letter case, set that colour option under its full name |
| Decode.BitmapField | ttwidgets/ttwidgets.py:1035-1041 | bitmap sets the bitmap option and, with auto, `compound=center` unless a compound is already set |
| Decode.BorderField | ttwidgets/ttwidgets.py:1042-1043 | bd and borderwidth set the borderwidth option |
| Decode.IntField | ttwidgets/ttwidgets.py:1049-1055 | height, width, repeatdelay and repeatinterval take the integer `int()` reads, and a value `int()` cannot read, None included, raises |
| Decode.ReliefField | ttwidgets/ttwidgets.py:1062-1065 | relief sets the relief option and, with auto, a border width of 1 unless one is set or the relief is flat |
| Decode.KeyUnderline | ttwidgets/ttwidgets.py:1066 | the key underline routes to the underline option, ahead of the font branches |
| Decode.KeyU | ttwidgets/ttwidgets.py:1105-1108 | the key u expands to funderline and routes to the font's underline branch |
| Decode.UnderlineField | ttwidgets/ttwidgets.py:1066-1067 | underline and ul set the underline option: -1 for a bare key, else the integer `int()` reads, else an error |
| Decode.FamilyField | ttwidgets/ttwidgets.py:1077-1078 | family sets the font family |
| Decode.SizeField | ttwidgets/ttwidgets.py:1079-1088 | size sets the font size to an integer; a string `int()` cannot read raises the bad-size error, and a bare size raises `int(None)`'s error |
| Decode.BoldField | ttwidgets/ttwidgets.py:1089-1094 | b and bold set the weight to bold, or to normal for the values 0 and False |
| Decode.WeightSlantField | ttwidgets/ttwidgets.py:1095-1104 | weight and slant are copied into the font as given |
| Decode.WeightField | ttwidgets/ttwidgets.py:1095-1096 | weight is copied into the font as given |
| Decode.SlantField | ttwidgets/ttwidgets.py:1103-1104 | slant is copied into the font as given |
| Decode.ItalicField | ttwidgets/ttwidgets.py:1097-1102 | i and italic set the slant to italic, or to roman for 0 and False |
| Decode.FUnderlineField | ttwidgets/ttwidgets.py:1105-1109 | u and funderline set the font's underline flag to 1, or to 0 for 0 and False |
| Decode.FOverstrikeField | ttwidgets/ttwidgets.py:1110-1114 | o and foverstrike set the font's overstrike flag the same way |
| Decode.CaseField | ttwidgets/ttwidgets.py:1116-1120 | case=p selects the first of upper, capitalize, lower, title and swapcase that starts with p, with capitalize giving upper; no match keeps the case, and a bare case raises |
| Decode.PickCaseFirst | ttwidgets/ttwidgets.py:1117-1120 | the case picked is the first name that starts with the prefix, and none is picked exactly when no name does |
| Decode.FieldGrows | ttwidgets/ttwidgets.py:1026-1140 | one field only adds entries: keys keep their places, stay unique, the font gains only standard attribute names and the case is kept or becomes one of upper, lower, title and swapcase |
| Decode.FieldsGrow | ttwidgets/ttwidgets.py:1013-1140 | the same for every field of the loop |
| Decode.TagAttrsGrow | ttwidgets/ttwidgets.py:1013-1154 | the same for a whole `parse_tag_attrs` call on the dicts passed in |
| Dicts.UpdateGet | ttwidgets/ttwidgets.py:456-460 | after `update(e)`, the keys of e read as in e and the others as before |
| DictOps.RenameNoCollision | ttwidgets/ttwidgets.py:623-626 | a key-renaming dict comprehension whose new keys do not collide renames entry by entry, in order |
| DictOps.FontOptionsRoundTrip | ttwidgets/ttwidgets.py:611-641 | converting a font dict to an options dict and back gives the dict again, when it has no funderline or foverstrike key |
| DictOps.OptionsFontRoundTrip | ttwidgets/ttwidgets.py:611-641 | converting an options dict to a font dict and back gives the dict again, when it has no underline or overstrike key |
| DictOps.PareGet | ttwidgets/ttwidgets.py:964-980 | `pare_dict` keeps an entry exactly when the reference has a different value for it (non-strict), or has the key with a different value (strict) |
| DictOps.OptionsPartGet | ttwidgets/ttwidgets.py:1267-1271 | the options part holds every entry whose key is neither a font key nor a case key |
| DictOps.FontPartGet | ttwidgets/ttwidgets.py:1262-1266 | the font part holds each standard font attribute, read under its options-dict name |
| DictOps.SplitDictCase | ttwidgets/ttwidgets.py:1257-1272 | the case is "" when no key selects one, and when the last key does, the case is its value (for `case`) or the key's name |
| Encode.GenTagAttrs | ttwidgets/ttwidgets.py:750-881 | the loop over the merged dict, appending and patching the text, returns what `TagAttrsText` gives, or the unbound-name error |
| Encode.GenFieldsAppend | ttwidgets/ttwidgets.py:752-760 | the loop over two dicts in a row is the loop over the first, then over the second from where the first left the text |
| Encode.UnboundKeyModeRaises | ttwidgets/ttwidgets.py:767-779 | with a kmode starting with neither a nor o, the call raises at the first entry that is not skipped, and returns the text unchanged when there is none |
| Encode.SkippedKeys | ttwidgets/ttwidgets.py:760-870 | auto, extend, kmode and pare, in any letter case, leave no token; text and txt leave one only with extend |
| Encode.TextField | ttwidgets/ttwidgets.py:868-870 | a key routed as text leaves a token only with extend |
| Encode.BorderAppends | ttwidgets/ttwidgets.py:795-802 | a border width is appended unless the auto border token is already in the text |
| Encode.ReliefAuto | ttwidgets/ttwidgets.py:816-819 | with auto, a relief brings `borderwidth=1` (or `bd=1`) unless the text already holds a border width |
| Encode.FieldsAppend | ttwidgets/ttwidgets.py:760-873 | with no border width or compound in the dict, the text so far stays a prefix of the result |
| Encode.GenUnderline | ttwidgets/ttwidgets.py:782-787 | the key underline is written by the colour branch, as a plain option |
| Encode.GenWeight | ttwidgets/ttwidgets.py:835-841 | the key weight is written by the weight branch |
| Codec.BoldRoundTrip | ttwidgets/ttwidgets.py:835-841 | the bold token the encoder writes, in any of the three spellings, reads back as the weight bold or normal |
| Codec.ItalicRoundTrip | ttwidgets/ttwidgets.py:842-848 | the italic token reads back as the slant italic or roman |
| Codec.FUnderlineRoundTrip | ttwidgets/ttwidgets.py:849-853 | the funderline token reads back as the font's underline flag |
| Codec.FOverstrikeRoundTrip | ttwidgets/ttwidgets.py:854-858 | the foverstrike token reads back as the font's overstrike flag |
| Codec.GenPlainText | ttwidgets/ttwidgets.py:656-881 | `gen_tag_attrs(None, d, kmode=...)` of a non-empty dict of plain options is exactly the `key=value` fields of its entries, in the dict's order, keys spelled as kmode says, joined by single blanks |
| Codec.OptionsRoundTrip | ttwidgets/ttwidgets.py:656-1154 | a dict of plain options, written by `gen_tag_attrs` in any of the three key spellings and read back by `parse_tag_attrs`, gives the same dict, entry for entry and in order, with no font and no case |
| CodecExamples.GenTestGiven | ttwidgets/test/test_ttwidgets.py:56-66 | `gen_tag_attrs(None, o_d, kmode='')` of the test's dict is exactly the expected text, `family="Courier New" background=white fg=blue bd=2 relief=solid funderline=1 foverstrike=0 underline=10` |
| CodecExamples.GenTestAlias | ttwidgets/test/test_ttwidgets.py:68-78 | `gen_tag_attrs(options=o_d, kmode='alias')` is exactly `fam="Courier New" bg=white fg=blue bd=2 rel=solid u=1 o=0 ul=10` |
| CodecExamples.GenTestOption | ttwidgets/test/test_ttwidgets.py:80-91 | `gen_tag_attrs(None, o_d, kmode='option')` is exactly `family="Courier New" background=white foreground=blue borderwidth=2 relief=solid funderline=1 foverstrike=0 underline=10` |
| CodecExamples.Test5Joined | ttwidgets/test/test_ttwidgets.py:116-119 | the fifth case's expected text is its nine fields, the family value quoted, joined by single blanks |
| CodecExamples.Test5Split | ttwidgets/ttwidgets.py:1175-1208 | `split_attrs` of those tokens gives the nine fields, `family="Courier New"` as one field |
| CodecExamples.Test5Applied | ttwidgets/ttwidgets.py:1013-1140 | the decoding loop over the nine fields gives the options background, foreground, borderwidth, relief and underline, the font family, underline and overstrike, and the case title |
| CodecExamples.ParseTest5 | ttwidgets/test/test_ttwidgets.py:108-127 | `parse_tag_attrs(expected_text)` of the fifth case returns the case's `o_d`, `f_d` and `'title'`, entry for entry and in the order the test writes them |
| Chunks.SplitTaggedTextConcat | ttwidgets/ttwidgets.py:1284-1289 | joining the chunks reproduces the text exactly |
| Chunks.SplitFromNonEmpty | ttwidgets/ttwidgets.py:1289 | no chunk is empty |
| Chunks.SplitUntagged | ttwidgets/ttwidgets.py:1284-1289 | a text with no `<t`, in any letter case, is one chunk, or none when empty |
| Chunks.RegionEndFirst | ttwidgets/ttwidgets.py:1285 | a tag region ends at the first `>` after a `/` followed by nothing, `t` or `tag` |
| Chunks.RegionEndCloses | ttwidgets/ttwidgets.py:1285 | every region ends in `/>`, `/t>` or `/tag>` |
| Chunks.FindRegionFirst | ttwidgets/ttwidgets.py:1285 | the region taken starts at the leftmost `<t` that has a close after it |
| Chunks.PairAtWhole | ttwidgets/ttwidgets.py:1224 | the pair pattern at the start of `<tag attrs>text</close>` captures the tag, the attributes and the text, and runs to the end |
| Chunks.PairChunk | ttwidgets/ttwidgets.py:1223-1244 | a single pair `<t\|tag ATTRS>TEXT</t\|tag>` with no `>` in ATTRS or TEXT splits into its tag, attributes and text |
| Chunks.PlainChunk | ttwidgets/ttwidgets.py:1237-1243 | a chunk with no `<t` in any letter case (such as `a < b`) is plain text with an empty tag and attributes, and the empty chunk gives the empty tuple |
| Chunks.SplitChunkTriple | ttwidgets/ttwidgets.py:1237-1243 | a non-empty chunk never gives the empty tuple |
| Chunks.SelfClosingChunk | ttwidgets/ttwidgets.py:1227-1235 | a self-closing chunk is decoded, its text taken out and encoded again as a pair; a failure of either raises, and a readable pair gives the tag, the new attributes and the text |
| Chunks.SelfClosingBare | ttwidgets/ttwidgets.py:1228-1229 | a self-closing chunk with nothing after the tag word raises |
| Chunks.StripPlain | ttwidgets/ttwidgets.py:1292-1302 | text with no `<t` in any letter case (such as `a < b`) is its own plain text and is not tagged text |
| Chunks.SplitPlainPair | ttwidgets/ttwidgets.py:1275-1289 | plain text followed by one pair splits into the plain text and the pair |
| Chunks.StripPlainPair | ttwidgets/ttwidgets.py:1292-1302 | `strip_tags` of plain text and a pair is the plain text followed by the pair's text, and such a text is tagged text |
| Chunks.StripExample | ttwidgets/ttwidgets.py:4795 | `strip_tags('one <t b>bold</t>')` is `'one bold'` |
| ChunkExamples.PairExample | ttwidgets/ttwidgets.py:4812 | `split_chunk('<tag fg=red>red</tag>')` is `('tag', 'fg=red', 'red')` |
| ChunkExamples.TrailingBlankFields | ttwidgets/ttwidgets.py:1192-1208 | a field followed by a blank splits into the field and an empty field |
| ChunkExamples.BitmapDecoded | ttwidgets/ttwidgets.py:1035-1039 | `parse_tag_attrs("bitmap=question ")` gives the options `{bitmap: question}` |
| ChunkExamples.BitmapEncoded | ttwidgets/ttwidgets.py:788-792 | `gen_tag_attrs` of `{bitmap: question}` is `bitmap=question` |
| ChunkExamples.BitmapReencoded | ttwidgets/ttwidgets.py:1230-1233 | decoding `bitmap=question ` and encoding the options again gives `bitmap=question`, with no text taken out |
| ChunkExamples.SelfClosingExample | ttwidgets/ttwidgets.py:4813 | `split_chunk('<tag bitmap=question />')` is `('tag', 'bitmap=question', '')` |
| Reflow.WrapTaggedText | ttwidgets/ttwidgets.py:1369-1432 | the method returns what `Reflowed` gives, or raises what it raises |
| Reflow.FindInsertPoints | ttwidgets/ttwidgets.py:1389-1412 | the walk loop over the plain text returns the insert points of `InsertPoints`, or the index error when the wrapped string runs out |
| Reflow.InsertNewlines | ttwidgets/ttwidgets.py:1413-1420 | the reverse loop over the insert points returns the divs of `SpliceAll` |
| Reflow.WalkSplit | ttwidgets/ttwidgets.py:1393-1412 | the walk over the whole text is the walk up to any point, followed by the walk from there |
| Reflow.JoinSplitLines | ttwidgets/ttwidgets.py:1383-1387 | splitting at the newlines and joining again, with the final newline put back, gives the text back |
| Reflow.WrappedUnchanged | ttwidgets/ttwidgets.py:1383-1387 | a text whose lines the wrapping leaves alone is its own wrapped string |
| Reflow.WalkInStep | ttwidgets/ttwidgets.py:1393-1398 | against a wrapped string equal to the text, the walk records no point |
| Reflow.WalkBlanks | ttwidgets/ttwidgets.py:1393-1398 | when the wrapping only replaced blanks, the points are exactly the changed positions |
| Reflow.WalkBlankPoints | ttwidgets/ttwidgets.py:1394-1395 | ... and each of them is at a blank |
| Reflow.WalkLocated | ttwidgets/ttwidgets.py:1390-1412 | with no empty div, the walk keeps its place in the divs, and every point names the div and offset of its character |
| Reflow.InsertPointsAt | ttwidgets/ttwidgets.py:1389-1420 | with no empty div, every point of a successful walk is in range, so the splicing cannot raise |
| Reflow.SpliceFirstWins | ttwidgets/ttwidgets.py:1414-1420 | the splicing fails exactly when a point names no div; otherwise each div has its original text with a newline at its first point, because every later splice of the div starts again from the original |
| Reflow.SerialisedUntagged | ttwidgets/ttwidgets.py:1421-1431 | divs without attributes are written out as their texts alone |
| Reflow.DivsStripped | ttwidgets/ttwidgets.py:1378-1382 | the plain text the walk runs over is `strip_tags(text)` |
| Reflow.ReflowEmpty | ttwidgets/ttwidgets.py:1378-1391 | with a positive count, the empty text raises the index error of `divs[0]` |
| Reflow.ReflowFits | ttwidgets/ttwidgets.py:1369-1432 | a text whose plain lines all fit comes back exactly as it was |
| Reflow.InsertPointsAtBlanks | ttwidgets/ttwidgets.py:1389-1412 | when the wrapping only replaces blanks and no div is empty, the walk succeeds and its points are exactly the changed blanks, each at its div and offset |
| Reflow.ReflowAtBlanks | ttwidgets/ttwidgets.py:1369-1432 | `wrap_tagged_text` succeeds when the wrapping only turns blanks into newlines and no div is empty |
| Reflow.WithText | ttwidgets/ttwidgets.py:1378-1382 | dropping the divs with empty text leaves no such div and keeps the plain text and the serialised text |
| Reflow.WithTextPointsAt | ttwidgets/ttwidgets.py:1389-1420 | walking only the divs that have text, every point of a successful walk names the div and offset of its character, and the splicing cannot raise |
| Reflow.ReflowWithTextAtBlanks | ttwidgets/ttwidgets.py:1369-1432 | with that walk, the call succeeds whenever the wrapping only turns blanks into newlines, empty divs or not |
| ReflowExamples.EmptyPairChunks | ttwidgets/ttwidgets.py:1284-1289 | `<t b></t>a b` splits into the empty pair and `a b` |
| ReflowExamples.WalkPastEmpty | ttwidgets/ttwidgets.py:1389-1412 | after an empty div, the walk over `a b` against `a\nb` records its point at the second div's offset 0 |
| ReflowExamples.EmptyDivDropsChar | ttwidgets/ttwidgets.py:1369-1432 | `wrap_tagged_text('<t b></t>a b', 1)`, where `fill('a b', 1)` is `a\nb`, returns `\n b`: the `a` is replaced and the blank stays |
| ReflowExamples.EmptyDivKeepsChar | ttwidgets/ttwidgets.py:1369-1432 | the same call, walking only the divs that have text, returns `a\nb` |

## Left out

- The widget classes (`TTWidget`, `TTButton`, `TTLabel`, `TTListbox`, `TTToolTip`), Tk, events, geometry and timers are not part of this model. Neither are `dump`, `unmap`, `_flesh_config` or the demo program.
- `get_named_font`, `get_font_dict`, `update_named_font` and the named-font cache need Tk. The `str()` of `get_named_font`'s result is the function parameter `namedFont`.
- `textwrap.fill` is the function parameter `fill`. The model says where its output is used, not how it breaks a line.
- The widget path of `gen_tag_attrs` is left out: the widget's own options and font, `recurse`, `index`, and a font given as a name, list or `Font` object. Without a widget, `index` only raises, and `pare` only affects the widget path.
- `_print_out(..., Raise=True)` is modelled only as the error it raises. Its printing is left out.
- The bad-options branch of `parse_tag_attrs` and `gen_tag_attrs` tests `key in ()`, which never holds. It is left out.
- `alias()` and `unalias()` without an argument return whole dicts, and `unalias(None)` fails on `len(None)`. Both are outside the engine.
- `TTWidget.unquote` calls `quote` by mistake. Only the module-level `unquote` is modelled.
- The alias table is static. `TTWidget.widget_option_aliases_d` starts as the module table, so the branch that extends it at run time (ttwidgets/ttwidgets.py:1739-1752) is never taken.
- `Aliases.Unaliased` and `Aliases.Aliased` group the table entries by alias length and first letter, and by option-name length. A lookup gives the same answer in any order.
- `Strs.Lower` lower-cases ASCII letters only, where `str.lower` covers all of Unicode.
- `Strs.ParseInt` accepts ASCII digits only, where `int()` also accepts other Unicode decimal digits.
- `Strs.IsSpace` lists `str.isspace`'s characters and uses the same set for the regex class `\s`.
- Attribute values are str, int or None, the only kinds the engine produces. Keyword arguments of `gen_tag_attrs` other than kmode, auto and extend are one ordered dict.
- Reflow.ReflowAtBlanks: states that the call succeeds, not the text it returns. The text is given piece by piece by `Reflow.InsertPointsAtBlanks`, `Reflow.SpliceFirstWins` and `Reflow.SerialisedUntagged`.
- Reflow.WalkLocated and Reflow.InsertPointsAt: assume no div has empty text. After a div with empty text, such as `<t fg=red></t>`, the walk counts the next character against that empty div. The points that follow are then one character off: their offset is one short, or they name the wrong div, and the newline can replace the character before the blank instead of the blank. `ReflowExamples.EmptyDivDropsChar` shows this for one input (see Findings). `Reflow.WithTextPointsAt` proves the located points for the walk that skips such divs.
- Decode.ParseTagAttrs: returns new dicts. It does not model that `parse_tag_attrs` updates the caller's `options_d` and `font_d` in place (ttwidgets/ttwidgets.py:995-998). Nor does it model that an empty dict passed in is replaced by a new one and left unchanged (ttwidgets/ttwidgets.py:1006-1007).
- The `gen_tag_attrs` side of the fourth and fifth test cases, which pass a font dict, is not restated. The test compares those outputs only after sorting the fields.
- Decode.FieldGrows, Decode.FieldsGrow and Decode.TagAttrsGrow: say that decoding only adds entries. The exact entries are stated for each key by the `Decode.*Field` lemmas.

## Findings

| source | as written | input that shows it | evidently intended | confidence | as-written member | corrected member |
|---|---|---|---|---|---|---|
| ttwidgets/ttwidgets.py:1389-1412 | the walk moves to the next div only after taking a character, so the first character after a div with empty text is counted against that empty div | `wrap_tagged_text('<t b></t>a b', 1)`, with `fill('a b', 1) == 'a\nb'`, returns `'\n b'` | `'a\nb'`: the blank becomes the newline | not executed | ReflowExamples.EmptyDivDropsChar | Reflow.ReflowedWithText (proved by Reflow.WithTextPointsAt, Reflow.ReflowWithTextAtBlanks, ReflowExamples.EmptyDivKeepsChar) |
