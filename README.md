# SINBON quotation parser, modelled in Dafny

This project models `parse_sinbon_quote` from `parser.py`. The function takes the text extracted from a
SINBON quotation PDF and turns it into rows of a twelve-column sheet: Date, Customer, Planner, Product,
Rated Current, Cable Length, Description, Delivery Term, MOQ, Price, L/T, Remark.

The model covers the function and every helper it calls:

- whitespace normalisation (`_norm_ws`);
- the date, found by three regular expressions in priority order and rendered as YYYY-MM-DD;
- customer and planner, with the issuer denylist;
- the product block, from the `product` heading to the `notes:` line;
- the product name and the bullets, split into rated current, cable length and the description;
- the lead-time ranges, de-duplicated;
- the MOQ/price pairs;
- sample-quote detection and the three ways of reading a sample quote;
- the assembly of mass-quote rows: two pairs for each of the three delivery terms.

Modules, one file each:

- `PyStr` (`text.dfy`): the Python `str` operations the parser relies on. These are `strip`,
  `rstrip`, `splitlines`, `lower`, `upper`, `replace`, `split`, `join` and `int`, plus `_norm_ws`.
- `PyRe` (`regex.dfy`): a backtracking matcher for the regular-expression fragment the parser uses.
  - The fragment has `\b`, literals, and bounded or unbounded repetitions of a character class.
  - It supports `re.I` on literals.
  - A match is the list of positions between its items, and a capture group is a range of items.
  - `Search` is `re.search`, leftmost-first. `FindAll` is `re.findall`.
  - `Wrappers` holds `Option`.
- `Schema` (`schema.dfy`): `DELIVERY_TERMS_CANON`, the character classes and the output
  `Row`, whose fields follow `OUT_COLS` in order.
- `Header` (`header.dfy`): `_to_iso_date`, `_extract_date`, `_extract_customer_planner`.
- `ProductSpecs` (`product.dfy`): `_extract_product_block_lines`, `_extract_product_and_specs`.
- `Pricing` (`pricing.dfy`): `_extract_lead_times`, `_extract_moq_price_pairs`, and the lead-time
  backfill of `parse_sinbon_quote`.
- `SampleQuote` (`sample.dfy`): `_is_sample_quote`, `_extract_sample_rows`.
- `Quote` (`quote.dfy`): `parse_sinbon_quote`.

Each imperative Python function is a `method` whose loops follow the source. Each method is proved
equal to a specification function on the same inputs, and the source's promises are lemmas about
those functions. A price is a whole number of cents.

Five behaviours follow the code where one might expect otherwise:

- Lead times are any `d-d` to `dd-dd` range. No numeric range check is applied.
- Rows of a sample quote have an empty Remark, not "Sample".
- The product name is the first block line that is neither all digits nor a bullet.
- The issuer denylist (SINBON, JIANGYIN) applies only when the company-then-person pattern does not
  match.
- The FOB-only second try in `_extract_sample_rows` (parser.py:196-200) can never add a row. It uses the
  same pattern as the first per-term search, so it only runs when that search has already failed.
  `SampleQuote.FallbackAddsNothing` proves this.

## Model

| member | source | states |
|---|---|---|
| PyStr.NormProperties | parser.py:19-20 | `_norm_ws` output has no whitespace at either end and only single plain spaces inside; it is empty exactly when the input is all whitespace |
| PyStr.NormIdempotent | parser.py:19-20 | normalising twice gives the same text as normalising once |
| PyStr.NormFixesNormal | parser.py:19-20 | text already in normal form is left unchanged |
| PyStr.NormAcrossSpaces | parser.py:19-20 | a whitespace run between two texts that are not blank becomes exactly one space between their normalised forms |
| PyStr.CollapseConcat | parser.py:20 | collapsing whitespace runs works piecewise across a cut that follows a non-whitespace character |
| PyStr.StripPadded | parser.py:20 | `strip()` of text with non-whitespace ends, padded by whitespace on both sides, gives back that text |
| PyStr.NormKeepsContent | parser.py:19-20 | `_norm_ws` only rewrites whitespace: with all whitespace removed, its output and its input are the same text |
| PyStr.StripProperties | parser.py:20 | `strip()` is empty exactly for all-whitespace text, leaves no whitespace at either end, and keeps only characters of the input |
| PyStr.CollapseProperties | parser.py:20 | `re.sub(r"\s+", " ", …)` is empty only for empty text, keeps whether each end is whitespace, and leaves single plain spaces |
| PyStr.LineLength | parser.py:74 | a line of `splitlines()` runs up to the first line break and holds none |
| PyStr.SplitLinesNoBreak | parser.py:74 | no line of `splitlines()` holds a line break |
| PyStr.Lower | parser.py:157 | `lower()` keeps the length and lower-cases each character in place |
| PyStr.Upper | parser.py:171 | `upper()` keeps the length and upper-cases each character in place |
| PyStr.JoinAppend | parser.py:214 | joining one more part appends the separator and that part, so the parts appear in order with the separator between each two |
| PyStr.Remove | parser.py:139 | `replace(c, "")` keeps only, and every, character other than `c` |
| PyStr.RemoveSingle | parser.py:139 | `replace(c, "")` drops a lone `c` and keeps any other lone character |
| PyStr.RemoveConcat | parser.py:139 | `replace(c, "")` works part by part on a concatenation; with `RemoveSingle` this fixes the order and multiplicity of the kept characters |
| PyStr.RemoveAbsent | parser.py:139 | `replace(c, "")` changes nothing when `c` does not occur |
| PyStr.IndexOf | parser.py:124 | `split(":", 1)` cuts at the first colon: the character there is the colon and none comes before |
| PyStr.DecimalRoundTrip | parser.py:29 | reading back the decimal digits of a number gives the number |
| PyStr.DecimalValueBound | parser.py:146 | a number of at most k digits is below 10^k, so a `\d{1,6}` MOQ is below 1000000 |
| PyRe.MatchAt | parser.py:169 | a match found at a position is a match of the whole pattern, item by item, starting there |
| PyRe.Search | parser.py:35 | `re.search` returns a match at the leftmost position where one exists, and none when no position has one |
| PyRe.FindAll | parser.py:135 | every item `re.findall` lists is a match of the pattern at or after the start |
| Header.PaddedRoundTrip | parser.py:29 | a zero-padded number reads back as the number, and one below 10^width takes exactly width characters |
| Header.IsoFormatRoundTrip | parser.py:29 | `strftime("%Y-%m-%d")` of a date with a four-digit year is ten characters, dashes at 4 and 7, and the year, month and day read back from their places |
| Header.ToIsoDate | parser.py:22-31 | empty exactly when the normalised raw text is empty; the parsed date as YYYY-MM-DD when the parser accepts the text; otherwise the normalised raw text |
| Header.ExtractDate | parser.py:33-46 | the date is empty exactly when none of the three date shapes occurs; otherwise it is the leftmost match of the first shape that occurs, in the order day-month-year, month-day-year, year-month-day, passed through `_to_iso_date` |
| Header.MatchedDateNotBlank | parser.py:35-45 | a matched date text is never blank, so it always reaches the date parser |
| Header.FirstNonIssuer | parser.py:61-65 | the chosen candidate is the first one that names neither SINBON nor JIANGYIN, and every earlier one does |
| Header.FirstCustomer | parser.py:61-65 | the denylist loop yields the first non-issuer company name, normalised, or "" |
| Header.ExtractCustomerPlanner | parser.py:48-68 | the customer and planner are those of the specification `CustomerPlanner` |
| Header.CustomerPlannerProperties | parser.py:48-68 | "Sherry Liu" in the text is always the planner; in the fallback branch the customer is "" exactly when every company name is the issuer's, and otherwise is the first company name that is not |
| Header.CompanyNotBlank | parser.py:60-64 | every company name found ends in "Co., Ltd.", so it never normalises to "" |
| ProductSpecs.FirstWhere | parser.py:76-79 | the index found is the first at or after the start whose line satisfies the test, or the end |
| ProductSpecs.ExtractProductBlockLines | parser.py:70-89 | the two loops return the block of the specification `ProductBlock` |
| ProductSpecs.NoHeadingNoBlock | parser.py:80-81 | with no line normalising to "product", the block is empty |
| ProductSpecs.BlockBetweenHeadingAndNotes | parser.py:75-89 | the block is exactly the non-blank lines strictly between the first heading and the first `notes:` line after it |
| ProductSpecs.BlankIffNormEmpty | parser.py:89 | `_norm_ws(x)` is falsy exactly when the line is all whitespace |
| ProductSpecs.NonBlankMembers | parser.py:89 | the kept lines are exactly the non-blank lines |
| ProductSpecs.NonBlankConcat | parser.py:89 | filtering blank lines commutes with concatenation |
| ProductSpecs.ProductNameIsFirstNameLine | parser.py:101-109 | the product name is the normalised first block line that is neither all digits nor a bullet, or "" when there is none |
| ProductSpecs.FindProductName | parser.py:101-109 | the loop yields that product name |
| ProductSpecs.CollectBullets | parser.py:112-116 | the loop yields the bullets of the specification `Bullets` |
| ProductSpecs.BulletsFromBlock | parser.py:112-116 | every bullet comes from a bullet line of the block, and every bullet line gives its bullet |
| ProductSpecs.SplitBullets | parser.py:118-129 | the loop yields the rated current, the cable length and the other bullets of the specification |
| ProductSpecs.LabelHasColon | parser.py:123-126 | a bullet matching either label contains a colon, so `split(":", 1)[1]` never fails |
| ProductSpecs.LabelsExclusive | parser.py:123-126 | no bullet matches both labels |
| ProductSpecs.LastLabelValueIsLast | parser.py:122-126 | the rated-current or cable-length value comes from the last bullet carrying that label |
| ProductSpecs.LastLabelValueAbsent | parser.py:118-126 | with no bullet carrying the label, the value stays "" |
| ProductSpecs.OtherSpecsMembers | parser.py:127-129 | the description bullets are exactly the bullets carrying neither label |
| ProductSpecs.ExtractProductAndSpecs | parser.py:91-131 | returns the product name, rated current, cable length and other bullets of the specification `ProductAndSpecs` |
| Pricing.LeadTimeTokens | parser.py:135-139 | every lead-time token has no space and keeps its dash |
| Pricing.RangeText | parser.py:139 | a matched range with its spaces removed holds no space and keeps its dash |
| Pricing.ExtractLeadTimes | parser.py:133-142 | the loop returns the de-duplicated tokens of the specification `Dedup` |
| Pricing.DedupMembers | parser.py:137-141 | de-duplication keeps every token and adds none |
| Pricing.DedupDistinct | parser.py:140-141 | no token appears twice in the result |
| Pricing.DedupOrder | parser.py:137-141 | the tokens come in the order of their first occurrence |
| Pricing.Cents | parser.py:150 | the price in cents has the dollars as its quotient by 100 and the two fraction digits as its remainder |
| Pricing.CommasRemoved | parser.py:150 | after `replace(",", "")` a `[\d,]+` price holds only digits |
| Pricing.PriceAtValue | parser.py:150 | a matched price in cents has the whole part, commas dropped, as its quotient by 100 and the two decimals as its remainder |
| Pricing.PairOf | parser.py:146-150 | the MOQ of a pair is below 1000000, since the quantity has at most six digits |
| Pricing.PairOfValues | parser.py:146-150 | a pair's MOQ is the value of the match's quantity digits, and its cents are the match's price: the whole part with commas dropped, then the two decimals |
| Pricing.MoqPricePairs | parser.py:144-153 | one pair per `findall` match, every MOQ below 1000000 |
| Pricing.MoqPricePairsValues | parser.py:144-153 | pair k holds the quantity and price values captured by match k of `findall` |
| Pricing.ConvertPairs | parser.py:148-152 | the loop converts each match to its pair, in order |
| Pricing.ExtractMoqPricePairs | parser.py:144-153 | returns the pairs of the specification `MoqPricePairs` |
| Pricing.TermLeadTimes | parser.py:244-252 | always three lead times: the first three; `[a, b, a]` for two; `[a, a, a]` for one; three empty strings for none |
| SampleQuote.SampleQuoteIff | parser.py:155-158 | a sample quote is one whose lower-cased text contains "sample" and which holds a "1" with no word character on either side |
| SampleQuote.MatchOneAt | parser.py:158 | `\b1\b` matches at a position exactly when a standalone "1" stands there |
| SampleQuote.TermRow | parser.py:190-194 | a term has a row exactly when its line is found, and that row carries the term and MOQ 1 |
| SampleQuote.TermRowPrice | parser.py:190-194 | a term's row holds the price its line's match captured: the whole part with commas dropped, then the two decimals |
| SampleQuote.OneLineRowPrice | parser.py:169-179 | the one-line form's row has MOQ 1 and holds the price its match captured |
| SampleQuote.CollectTermRows | parser.py:189-194 | the loop over the three terms yields the rows of the specification `TermRows` |
| SampleQuote.ExtractSampleRows | parser.py:160-202 | returns the rows of the specification `SampleRows` |
| SampleQuote.TermRowsOrdered | parser.py:184-194 | the per-term rows are at most three, in strictly increasing canonical order, so no term repeats |
| SampleQuote.TermRowsTerms | parser.py:189-194 | every per-term row is for a canonical delivery term and has MOQ 1 |
| SampleQuote.TermRowsPresence | parser.py:189-194 | a delivery term has a row exactly when its line occurs in the flattened text |
| SampleQuote.OneLineTerm | parser.py:169-171 | the one-line form's term, normalised and upper-cased, is always "FOB SH" |
| SampleQuote.FallbackAddsNothing | parser.py:196-200 | when the one-line form is absent, the sample rows are exactly the per-term rows: the FOB second try never adds one |
| SampleQuote.SampleRowsProperties | parser.py:160-202 | the one-line form gives exactly one row, for FOB SH; in every case at most three rows, each for a canonical term, in canonical order, each with MOQ 1 |
| Quote.TextOf | parser.py:208 | missing extracted text reads as the empty text; present text is used as it is |
| Quote.LeadTimeCell | parser.py:272 | the L/T cell is empty exactly when the lead time is, and otherwise is the lead time followed by "wks" |
| Quote.DescriptionPartsProperties | parser.py:214 | the description parts are normalised and non-empty, every non-blank bullet contributes one, every part is the normalised text of some bullet, and there are none exactly when every bullet is blank |
| Quote.DescriptionPartsConcat | parser.py:214 | the parts of two runs of bullets are the parts of the first followed by those of the second, so the bullets' order is kept |
| Quote.DescriptionFromOtherBullets | parser.py:122-129 | every part of the description (joined at parser.py:214) is the normalised text of a product-block bullet carrying neither the rated-current nor the cable-length label |
| Quote.JoinEmpty | parser.py:214 | joining non-empty parts is empty only when there are no parts |
| Quote.DescriptionEmptyIff | parser.py:214 | the description is empty exactly when every remaining bullet is blank |
| Quote.SampleOutLoop | parser.py:219-234 | the loop yields one output row per sample row |
| Quote.AppendChunk | parser.py:258-274 | the inner loop appends the rows of term t's chunk `pairs[2t:2t+2]` |
| Quote.MassOutLoop | parser.py:255-274 | the nested loop yields the mass rows of the specification `MassOut` |
| Quote.MassOutProperties | parser.py:255-274 | a mass quote has min(len(pairs), 6) rows; row k carries pair k and the delivery term and lead time of index k / 2; terms never go backwards |
| Quote.SampleOutProperties | parser.py:220-234 | row k of a sample quote carries sample row k's term, MOQ, price and L/T cell |
| Quote.ParseSinbonQuote | parser.py:204-276 | returns the rows of the specification `Rows` |
| Quote.RowsProperties | parser.py:204-276 | every row carries the quotation's shared columns, an empty remark, a canonical delivery term and an L/T that is empty or ends in "wks"; a sample quote has at most three rows, all with MOQ 1; any quotation has at most six |

## Left out

- `app.py`: the Streamlit upload, preview and CSV download shell is user interface and I/O, not parsing.
- `parse_quote_file` and `VERSION` are imported by `app.py:4` but not defined in `parser.py`, so there is
  nothing to model.
- `dateutil.parser.parse` is a foreign library. It is the parameter `parse` of type `DateParser`, and
  its exception is that function returning `None`.
- `strftime("%Y-%m-%d")` always pads the year to four digits here. The platform-dependent output for
  years before 1000 is not modelled.
- Prices are whole numbers of cents, not Python floats. The rounding of a float such as `228.91` is not
  modelled. The Price column holds cents.
- The `try`/`except` around `int(moq)` and `float(price)` (parser.py:149-152) is not modelled. The
  regular expression only lets digit strings through, so the exception path cannot run.
- `\d`, `str.isdigit()` and `int()` take ASCII digits only. Python also accepts other Unicode decimal
  digits, and `str.isdigit()` further accepts digit characters such as superscript `²`. A block line made
  only of such characters is skipped by Python when it looks for the product name (parser.py:104), but
  the model takes it as the product name.
- `\w` is approximated: ASCII letters, digits and `_`, Latin-1 letters, Hangul, CJK ideographs and
  fullwidth letters and digits.
- `lower()` is modelled on ASCII letters only. `upper()` covers ASCII letters, long s and dotless i.
- `re.I` equates ASCII letters with their other case, long s with s, dotless and dotted I with i, and the
  Kelvin sign with k. Other Unicode case folding is not modelled.
- PyRe.FindAll: states that each listed match is a match, not that no match between them is skipped.
  The non-overlapping scan itself is its definition.
- PyRe.MatchAt: states soundness only. That it is the leftmost-first backtracking match is its
  definition, not a proved property.
- The dictionaries of the source are the `Row` and `SampleRow` datatypes. MOQ and price are
  natural numbers.
