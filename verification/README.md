# Verification of the Factur-X engine

This project models the hard core of a Factur-X / ZUGFeRD invoice service and proves
properties of it with Dafny 4.11. `dafny verify dfyconfig.toml` checks everything.

## What is modelled

**Rendering and extraction.** `Invoice`, `Template` and `Extractor` are the request metadata,
the Jinja template as a function from metadata to a Cross Industry Invoice tree, and the
extractor, whose early-exit loops and accumulators are methods proved against functions;
`AnyDocument` says what the extractor makes of any document, and `Reader` with `ReadBack` that
a reader of the whole layout undoes the template field by field.
`Xml` gives the descendant searches of sections 2.4 and 2.5 of XPath 1.0 over trees of any
size; `Landmarks` shows where each search of the extractor lands in a rendered invoice, and
`RoundTrip` that extraction recovers the metadata. The template is not escaped: autoescaping
is selected by the `.xml` suffix and the template is called `factur-x.xml.j2`. `XmlText` writes
trees as text without escaping and reads them back, and shows exactly which trees survive;
`MarkupFree` carries that over to metadata, exactly, and joins it with the round trip, and
`Escaping` shows what escaping would have given.
`ExactText` shows that what is asked of float text can be met, and `NetTotal` what becomes of
an invoice without a readable net total. `Sample` is an invoice for the results that need one.

**Amounts and business rules.** `Decimal` has floats as exact decimals with a sign (so that
`-0.0` exists), `%.2f`, XPath's `number()` and the French limits on decimal text, which
`DecimalText` states on any text. `CoreRules`
is the repository's own stylesheet; its labels are its own: its BR-CO-13 is what EN 16931-1
calls BR-CO-10, and its BR-CO-16 is BR-CO-15 there. `SeveralTotals` has documents with any
number of header summations. `Dates` has the French date test and
BR-FR-CO-07, against a day count that does not mention months' lengths. `BarNotes` has
BR-FR-31 in its CII form and in its UBL form, which counts by deletion.

**Licence.** `License` is the cache and one call; `LicenseProtocol` is the same code
interleaved over any number of threads, with the lock, the clock and every field write as
steps of their own; `LicenseRuns` builds runs and ties the protocol to the single call.

**Metrics.** `Metrics` is the collector; `Handlers` interleaves the four endpoint handlers
over it, one step per call on the collector, with every way out of the bodies, `HandlerTrace`
compares the numbers with the history of the run and `HandlerLabels` label by label. `Singleton`
interleaves the double-checked creation of the collector with the use of what it returns, and
`SingletonRaces` shows from which states on its method bodies can overlap.

**Verdicts.** `HybridValidator`, `Service` and `Endpoint` are the chain from the two-layer
validator through the process-pool service to the Pro and Teaser replies and the generator's
quality gate. `Humanize`, `ErrorMap` and `LiteValidator` are the basic validator.

## What turned out not to hold

Each of these has a lemma at a failing input and one with the exact condition.

- The template does not escape what it writes: the invoice of "Dupont & Fils" does not read back
  (`MarkupFree.Ampersand`). An invoice does exactly when no field that is written contains `<`,
  `&`, a carriage return or `]]>`, and none that becomes an attribute contains a quote, a line
  break or a tab (`MarkupFree.WrittenExactly`).
- The net total that the extractor falls back on sums the first ten lines only: of eleven euros
  it extracts ten (`NetTotal.ElevenLines`, exact in `NetTotal.FallbackExactly`).
- The French date test also accepts years written with digits of another script, as common
  years (`Dates.OtherScript`, exact in `Dates.AcceptsExactly`); and BR-FR-CO-07 compares whole
  texts, so a due date on the day of issue is late when the issue date is longer than eight
  characters (`Dates.LateOnTheSameDay`, exact in `Dates.TextOrderIsDayOrder`).
- A rate that rounds to `-0.00` fails its rule (`Decimal.MinusZeroFails`, exact in
  `Decimal.PrintedRateRule`).
- The two forms of BR-FR-31 differ on listed values padded with white space
  (`BarNotes.TrailingSpaceSplits`) and on contents that contain `#` (`BarNotes.SignsSplit`);
  `BarNotes.FormsAgree` is exact for both.
- With two header summations a total of a million on an invoice of one euro goes unreported
  (`SeveralTotals.MillionMasked`, exact in `SeveralTotals.FiresExactly`).
- Three lines of one cent and a half are enough for BR-CO-13 to reject an invoice whose declared
  total is exact (`CoreRules.DriftBites`; exact in `CoreRules.RenderedReport`, and
  `CoreRules.DriftTolerated` gives a bound that needs only the number of lines).
- A schema check that fails without a log entry gives an invalid result without an error, which
  Teaser mode then calls valid (`Service.SilentIsInvalid`, `Endpoint.TeaserBeatsPro`; exact in
  `HybridValidator.ValidIffNoErrors` and `Service.ResultConsistent`). In the basic validator
  an empty schema message does the same (exact in `LiteValidator.ValidateFile`).
- An assertion whose text element is empty ends the loop over the report with an exception: the
  findings after it are lost (`HybridValidator.RestIsLost`, exact in
  `HybridValidator.ReportedExactly`), although the verdict stays right.
- After a licence has expired, answers for its key can turn from false back to true, because a
  stalled thread overwrites a newer entry; this happens at any two instants of the minute after
  the expiry and at no others (`LicenseRuns.RevivesExactly`).
- The metrics collector is published before it is initialised (`Singleton.HandedOutEarly`). A
  method called on it then waits for the lock of the class, so none runs on a half-built
  object, but two may run at once (`Singleton.TwoBodiesAtOnce`, exact in
  `SingletonRaces.OverlapExactly`). The module builds the collector on import, which rules
  this out (`Singleton.ImportSettles` with `Singleton.BuiltFirst`).

## Model

| member | source | states |
|---|---|---|
| `RoundTrip.ExtractRendered` | app/services/extractor.py:78-239 | for all metadata, extracting the rendered tree gives the number, date, currency, parties, addresses, totals and the first ten lines in order, up to the documented defaults and two-decimal rounding |
| `RoundTrip.NumberBack` | app/templates/factur-x.xml.j2:8-10 | the first search finds the invoice number and never the guideline identifier, which has the same element name |
| `RoundTrip.PartiesBack` | app/templates/factur-x.xml.j2:85-145 | names, addresses and tax numbers of both parties come back; seller VAT falls back to the tax number, a missing seller address reads country FR |
| `RoundTrip.TotalsBack` | app/services/extractor.py:191-224 | the cascade of net, tax, gross and payable totals yields the declared amounts, with each fallback only where the text is missing or unreadable |
| `RoundTrip.LinesFound` | app/templates/factur-x.xml.j2:26-81 | the line search finds the rendered lines one for one and in order, for any number of lines |
| `RoundTrip.LinePriceBack` | app/services/extractor.py:149-153 | the price found inside a line is the net price, also when a gross price is rendered before it |
| `RoundTrip.ItemBack` | app/services/extractor.py:136-187 | every relative search stays inside its own line item and recovers name, quantity, unit, price, rate and total |
| `RoundTrip.TotalsKept` | app/services/extractor.py:189-224 | totals given as two-decimal text come back letter for letter |
| `RoundTrip.PlainReaderFaithful` | app/services/extractor.py:143-186 | the assumption on Python's float text is met by the two-decimal printer and the plain reader for quantities in hundredths |
| `ExactText.ReadPlaces` | app/services/extractor.py:141-146 | a value with any number k of decimal places reads back exactly from its text |
| `ExactText.PlacesFaithful` | app/services/extractor.py:141-186 | the assumption is met for every invoice whose quantities have finitely many decimal places, which all floats have |
| `NetTotal.FallbackExactly` | app/services/extractor.py:136-212 | for all metadata without a readable net total, the extracted net is the sum of all rounded line totals if and only if there are at most ten lines or those from the eleventh on add up to zero |
| `NetTotal.ElevenLines` | app/services/extractor.py:136-212 | an invoice of eleven lines of one euro from which ten euros are extracted |
| `Xml.SelectSteps` | app/services/extractor.py:89-96 | once its first tag is met and cannot recur below, a descendant search is the plain child path that remains |
| `Xml.SelectNone` | app/services/extractor.py:89-96 | a search finds nothing where one of its tags cannot be met |
| `Landmarks.ReachSummation` | app/templates/factur-x.xml.j2:252-261 | a search that starts at the header summation reaches the one summation of the rendered invoice, past any number of lines, taxes, allowances and charges |
| `Landmarks.ReachLines` | app/templates/factur-x.xml.j2:26-81 | a search that starts at a line item gives the concatenation of the child paths inside each rendered line |
| `Extractor.XPathFirst` | app/services/extractor.py:89-96 | the early-exit loop returns the text of the first node of the first search that finds one |
| `Extractor.ReadLines` | app/services/extractor.py:116-187 | the line loop fills the items and the running net total of the first ten lines |
| `Extractor.ParseInvoice` | app/services/extractor.py:78-239 | the step-by-step extraction computes the extraction function |
| `AnyDocument.FirstTextIs` | app/services/extractor.py:89-96 | the text is that of the first node of the first search that finds any, even if it is empty |
| `AnyDocument.AnyLine` | app/services/extractor.py:136-187 | for any line of any document: where each field is looked for and in which order, quantity 1 and price 0 by default, and a total that cannot be read is the product of quantity and price |
| `AnyDocument.AnyUnit` | app/services/extractor.py:183 | the unit is that of the first quantity that has one, C62 by default |
| `AnyDocument.NetAddsUp` | app/services/extractor.py:133-168 | the running net starts at zero and each kept line adds the value of its total |
| `AnyDocument.AnyHeader` | app/services/extractor.py:103-136 | for any document: where number, date and currency are looked for, and that the rows are those of the first ten lines |
| `AnyDocument.AnyTotals` | app/services/extractor.py:189-224 | for any document: the places of the four totals in both layouts, and that a missing gross has the value of net plus tax |
| `AnyDocument.AnyParties` | app/services/extractor.py:226-239 | for any document: where the names, tax numbers and addresses of both parties are looked for |
| `ReadBack.ReadRendered` | app/templates/factur-x.xml.j2:1-264 | a reader that takes every field from its own place recovers from the rendered invoice all of the metadata but what the template leaves out: taxes, allowances, charges, notes, guideline, delivery, payment and terms included |
| `ReadBack.TaxesBack` | app/templates/factur-x.xml.j2:193-202 | the tax groups come back in order, each with its own amount, basis, category and rate |
| `ReadBack.AdjustmentsBack` | app/templates/factur-x.xml.j2:209-234 | allowances and charges are told apart by their indicator, and both come back in order |
| `ReadBack.LineBack` | app/templates/factur-x.xml.j2:26-81 | every field of a line comes back, gross price and discount, note, identifiers and period included |
| `ReadBack.SellerBack` | app/templates/factur-x.xml.j2:85-119 | every field of the seller comes back, the bank from the payment means |
| `ReadBack.TermsBack` | app/templates/factur-x.xml.j2:235-251 | due date, terms and discount come back |
| `ReadBack.ReadWrittenInvoice` | app/services/generator.py:38-49 | the same from the generated text, for metadata free of markup |
| `XmlText.SurvivesExactly` | app/services/generator.py:16-49 | any tree, written without escaping and parsed, is the same tree if and only if its texts and attribute values are free of markup; `MarkupFree.WrittenExactly` says it of metadata |
| `XmlText.ReadWritten` | app/services/generator.py:16-49 | the parser reads a written element as the tree its raw texts stand for and leaves what follows it, at any nesting |
| `XmlText.ReadShortens` | app/services/generator.py:16-49 | what is read never writes longer than the text it came from, and as long only where nothing was resolved or skipped |
| `Escaping.EscapedExactly` | app/services/generator.py:18 | had the texts been escaped, any tree would parse, and as itself if and only if no text has a carriage return and no attribute value a line break or a tab |
| `Escaping.EscapedInvoice` | app/services/generator.py:18-47 | so with escaping every invoice would be well formed, whatever its metadata |
| `MarkupFree.RenderedClean` | app/templates/factur-x.xml.j2:1-264 | the rendered tree is free of markup if and only if every field that the template writes is, each guarded by the template's own test |
| `MarkupFree.WrittenExactly` | app/services/generator.py:16-49 | for all metadata, the generated text parses back to the rendered invoice if and only if the metadata are free of markup |
| `MarkupFree.Ampersand` | app/services/generator.py:16-49 | the invoice of a seller called Dupont & Fils does not read back |
| `MarkupFree.ExtractWritten` | app/services/generator.py:38-49 | from metadata to text and back: for all metadata free of markup the written invoice parses and extraction gives what the metadata promise |
| `Decimal.ReadPrinted` | app/services/extractor.py:154-186 | reading `%.2f` text gives the value rounded half to even at the cent, sign of zero included |
| `Decimal.RoundedOnce` | app/services/extractor.py:180-187 | rounding and reprinting a printed amount changes nothing |
| `Decimal.RoundedNear` | app/templates/factur-x.xml.j2:76 | the printed amount is within half a cent |
| `Decimal.PrintedAmountRule` | app/assets/schematron/en16931_ii_br_fr.xsl:126-131 | a printed amount passes the 19-position rule exactly below 10^17, a negative one exactly below 10^16 in magnitude, after rounding |
| `Decimal.PrintedRateRule` | app/assets/schematron/en16931_ii_br_fr.xsl:144-149 | a printed rate passes the 4-position rule exactly when it has no sign and rounds below 100.00 |
| `Decimal.MinusZeroFails` | app/assets/schematron/en16931_ii_br_fr.xsl:144-149 | a rate of minus a tenth of a cent prints as -0.00 and fails |
| `Decimal.PrintedPriceRule` | app/assets/schematron/en16931_ii_br_fr.xsl:138-143 | a printed price passes the positive 19-position rule exactly when it has no sign and rounds below 10^17 |
| `DecimalText.AmountRule` | app/assets/schematron/en16931_ii_br_fr.xsl:126-131 | on any text in its parts: the exact digits and length that the amount rule allows |
| `DecimalText.RateRule` | app/assets/schematron/en16931_ii_br_fr.xsl:144-149 | likewise for the rate rule |
| `DecimalText.PriceRule` | app/assets/schematron/en16931_ii_br_fr.xsl:138-143 | likewise for the price rule |
| `DecimalText.NumberRead` | app/assets/schematron/facturx_py_rules.xsl:37-67 | blanks, a sign and digits with or without a dot read as the number they spell |
| `DecimalText.OnlyNumbers` | app/assets/schematron/facturx_py_rules.xsl:37-67 | and no other text reads as a number |
| `DecimalText.TrimIs` | app/services/validator.py:102 | trimming takes off what is blank at both ends and nothing else |
| `CoreRules.GapExactly` | app/assets/schematron/facturx_py_rules.xsl:41-48 | exactly when the stylesheet's difference test fires, for any number of header nodes, NaN included |
| `CoreRules.GapOfOne` | app/assets/schematron/facturx_py_rules.xsl:41-67 | with one header node the test fires exactly when both operands are numbers more than 0.01 apart, and with none never |
| `CoreRules.GapMasked` | app/assets/schematron/facturx_py_rules.xsl:41-48 | on numbers: with two header nodes, one above and one below the computed sum in this order, the test is silent however far off the first is |
| `CoreRules.AnyReport` | app/assets/schematron/facturx_py_rules.xsl:17-78 | the five rules on any document, with paths, countries and schemes written out, and which of them are fatal |
| `SeveralTotals.FiresExactly` | app/assets/schematron/facturx_py_rules.xsl:37-52 | on invoice documents with any lines and any number of header summations, exactly when BR-CO-13 fires |
| `SeveralTotals.SecondMasks` | app/assets/schematron/facturx_py_rules.xsl:37-52 | any document whose first declared total is above and whose second is below the line sum passes |
| `SeveralTotals.MillionMasked` | app/assets/schematron/facturx_py_rules.xsl:37-52 | a document with one line of one euro that declares a million and then zero passes |
| `CoreRules.RenderedReport` | app/assets/schematron/facturx_py_rules.xsl:17-78 | on a rendered invoice each of the five rules is violated exactly when its condition on the metadata holds |
| `CoreRules.Drift` | app/templates/factur-x.xml.j2:76 | the printed line totals of n lines add up to within n half-cents of the true sum |
| `CoreRules.DriftTolerated` | app/assets/schematron/facturx_py_rules.xsl:37-52 | a declared total within e of the true sum never trips BR-CO-13 while n * 0.005 + e is at most 0.01 |
| `CoreRules.WholeCentsTolerated` | app/assets/schematron/facturx_py_rules.xsl:37-52 | lines in whole cents with the exact total never trip it, whatever their number |
| `CoreRules.DriftBites` | app/assets/schematron/facturx_py_rules.xsl:37-52 | three or more lines of one cent and a half with an exact declared total trip it |
| `Dates.AcceptsExactly` | app/assets/schematron/en16931_ii_br_fr.xsl:34-55 | the date test accepts exactly the real Gregorian dates of 2000 to 2099 in the first eight characters, and common-year dates whose year has a digit of another script |
| `Dates.MonthLength` | app/assets/schematron/en16931_ii_br_fr.xsl:47-52 | the month lengths and the leap rule of the test are those of the day count |
| `Dates.OtherScript` | app/assets/schematron/en16931_ii_br_fr.xsl:40-41 | any such digit in the third place gives an accepted text that is no date of these years |
| `Dates.TextOrderIsDayOrder` | app/assets/schematron/en16931_ii_br_fr.xsl:2574 | on real dates of 2000 to 2099 the comparison of texts is the order by day number, then that of what follows the eight characters |
| `Dates.DueDateByDay` | app/assets/schematron/en16931_ii_br_fr.xsl:2564-2574 | BR-FR-CO-07 on eight-character dates fires exactly on invoices that are not of type 386, 500 or 503 nor in framework B2, S2 or M2 and fall due before the day of issue |
| `Dates.MissingDates` | app/assets/schematron/en16931_ii_br_fr.xsl:2564-2574 | without a due date the rule holds; without an issue date only an exempt invoice passes |
| `Dates.LateOnTheSameDay` | app/assets/schematron/en16931_ii_br_fr.xsl:2574 | a longer issue date makes the same day count as late |
| `BarNotes.LossIsExact` | docs/2025_12_04_FNFE_SCHEMATRONS_FR_CTC_V1.2.0/20251114_BR-FR-Flux2-Schematron-UBL_V1.2.0.sch:1013-1018 | deleting a pattern shortens any text by exactly its length per match, so every division is exact |
| `BarNotes.ListedAre` | app/assets/schematron/en16931_ii_br_fr.xsl:2436-2437 | the five listed values |
| `BarNotes.MatchesAre` | docs/2025_12_04_FNFE_SCHEMATRONS_FR_CTC_V1.2.0/20251114_BR-FR-Flux2-Schematron-UBL_V1.2.0.sch:1013-1018 | in any text closed by a sign the pattern matches once for each piece between signs that ends in BAR and is followed by the value, and nowhere else |
| `BarNotes.UblCountsExact` | docs/2025_12_04_FNFE_SCHEMATRONS_FR_CTC_V1.2.0/20251114_BR-FR-Flux2-Schematron-UBL_V1.2.0.sch:1013-1021 | for any notes whatever the sum of quotients is the number of pieces that end in BAR and are followed by a listed value |
| `BarNotes.CountsAddUp` | docs/2025_12_04_FNFE_SCHEMATRONS_FR_CTC_V1.2.0/20251114_BR-FR-Flux2-Schematron-UBL_V1.2.0.sch:1013-1021 | with proper subject codes and any contents no match crosses from one note to the next, so the count is a sum over the notes |
| `BarNotes.FormsAgree` | app/assets/schematron/en16931_ii_br_fr.xsl:2434-2441 | on notes with proper subject codes and any contents, the UBL count is the CII count less the padded listed values plus the matches that signs inside contents make; so the counts agree exactly when these two are equal, and the exact condition of the UBL verdict |
| `BarNotes.FormsAgreeWithoutSigns` | app/assets/schematron/en16931_ii_br_fr.xsl:2434-2441 | without signs inside contents the counts agree exactly when no listed value is padded; verdicts then agree, and the UBL form is never the stricter one |
| `BarNotes.PaddingSplits` | app/assets/schematron/en16931_ii_br_fr.xsl:2434-2441 | a value listed only after trimming splits the verdicts |
| `BarNotes.TrailingSpaceSplits` | app/assets/schematron/en16931_ii_br_fr.xsl:2434-2441 | for instance a listed value with a trailing space |
| `BarNotes.SignsSplit` | docs/2025_12_04_FNFE_SCHEMATRONS_FR_CTC_V1.2.0/20251114_BR-FR-Flux2-Schematron-UBL_V1.2.0.sch:1013-1021 | one note with two listed values between signs is counted twice by the UBL form and not at all by the CII form |
| `License.LicenseCache.IsLicensed` | app/license.py:83-116 | one undisturbed call serves the entry or checks and overwrites it, field by field |
| `License.ChecksSpaced` | app/license.py:93-116 | with one key, each check comes a full lifetime after the one before, whatever the cache held first |
| `License.ChecksSpan` | app/license.py:93-116 | k checks of one key span at least 60 (k - 1) seconds, 300 (k - 1) for the empty key |
| `LicenseProtocol.NextKeeps` | app/license.py:83-116 | every step of every thread keeps the invariant: a complete entry repeats a real check and lapses with it, and a torn one is seen only by its writer |
| `LicenseProtocol.HitIsReal` | app/license.py:36-37 | over every interleaving a cache hit returns the verdict of a real check of the same key, begun less than 60 seconds before (300 for the empty key), never the initial None |
| `LicenseProtocol.NoLateLicense` | app/license.py:61-67 | over every interleaving a call that returns true has a valid key and a clock reading less than 60 seconds past its expiry |
| `LicenseRuns.AloneIsSequential` | app/license.py:88-116 | a call that no other thread disturbs can run to its end, and every such run, whatever its steps, does to the cache and answers exactly what the single call does |
| `LicenseRuns.LateByAlmostAMinute` | app/license.py:93-96 | for every delay short of a minute some run answers true that long after the expiry |
| `LicenseRuns.VerdictRevives` | app/license.py:107-116 | for every two instants in the minute after the expiry some run answers false at the first and true at the second |
| `LicenseRuns.RevivesExactly` | app/license.py:107-116 | a run that has answered false by one instant and answers true at a later one exists if and only if both lie in the minute after the expiry |
| `Metrics.Collector.constructor` | app/metrics.py:23-54 | the initial tables |
| `Metrics.Collector.AddTo` | app/metrics.py:56-60 | adds to a known counter and changes nothing else; an unknown name changes nothing |
| `Metrics.Collector.SetGauge` | app/metrics.py:62-66 | sets a known gauge and changes nothing else |
| `Metrics.Collector.IncGauge` | app/metrics.py:68-72 | adds to a known gauge and changes nothing else |
| `Metrics.Collector.DecGauge` | app/metrics.py:74-78 | subtracts from a known gauge and changes nothing else |
| `Metrics.Collector.Record` | app/metrics.py:80-87 | appends to a known window and keeps its last thousand values |
| `Metrics.Collector.AddLabel` | app/metrics.py:91-97 | adds to a label, from zero when it is new, and changes no other label or metric |
| `Metrics.Collector.RecordValidation` | app/metrics.py:99-127 | makes the labelled increments of one validation in order, five rules at most |
| `Metrics.WindowIsLast` | app/metrics.py:80-87 | after any observations the window is the last thousand of them in order and nothing else has changed |
| `Metrics.ExportedWindow` | app/metrics.py:156-167 | the exported count is the number of observations, up to a thousand |
| `Handlers.NextKeeps` | app/api.py:37-398 | every step of every handler moves the tables by exactly what it is worth in each count |
| `Handlers.Conservation` | app/api.py:39-398 | over every interleaving and exit path `requests_convert`, `requests_xml`, `requests_validate` and `requests_extract` are each the number of their handlers past the second increment, the request total is their sum plus the handlers between their increments, the gauge is the number of handlers that hold it and never negative, errors never exceed requests, and at rest the gauge is zero and every request was measured |
| `HandlerTrace.TraceLaws` | app/api.py:39-398 | over every interleaving each counter is what arrived on its route less what is still on its way to it, `errors_total` is the number of caught exceptions less those still to be counted, and the durations are the last thousand measured, in order |
| `HandlerLabels.OutcomeLabels` | app/metrics.py:110-113 | over every interleaving `pro:valid`, `pro:invalid`, `teaser:valid` and `teaser:invalid` are each the number of validations of that mode and verdict |
| `HandlerLabels.OtherLabels` | app/metrics.py:115-127 | likewise for each profile, for each rule among the first five of a recording, and for the buckets 1, 2-5 and 6+ of hidden findings |
| `Handlers.LabelLaws` | app/metrics.py:99-127 | over every interleaving, recordings under way or cut short included, the outcome labels add up to the recorded validations, the rule labels to at most five times that, and the hidden-error labels to the Teaser validations with two findings or more that were recorded to the end |
| `Singleton.OneCollector` | app/metrics.py:15-21 | over every interleaving one collector at most is made, every call returns it, no method body runs before all its fields are assigned, and two bodies overlap only when exactly one of them looked its lock up too early |
| `Singleton.BuiltFirst` | app/metrics.py:189-190 | once the collector is built and settled, method bodies exclude each other forever |
| `Singleton.ImportSettles` | app/metrics.py:189-190 | the run of a lone thread, the import, settles the collector |
| `SingletonRaces.OverlapExactly` | app/metrics.py:15-21 | after any run, some continuation has two method bodies at once if and only if the collector is not settled |
| `Singleton.HandedOutEarly` | app/metrics.py:19-21 | a reachable state in which a thread holds the collector without any of its fields |
| `Singleton.TwoBodiesAtOnce` | app/metrics.py:53-54 | a reachable state in which two threads are inside methods of the collector at once |
| `HybridValidator.Validate` | app/services/hybrid_validator.py:49-131 | the two layers with their loops and handlers compute flags and findings branch by branch |
| `HybridValidator.ReadReport` | app/services/hybrid_validator.py:101-124 | the loop over the report, broken off by an empty text, computes the findings and a verdict that is true only if every assertion was read and none blocks |
| `HybridValidator.ReportedExactly` | app/services/hybrid_validator.py:101-124 | every assertion is reported, in order, if and only if none has an empty text element |
| `HybridValidator.RestIsLost` | app/services/hybrid_validator.py:101-124 | from the first empty text on the report is the exception alone, whatever follows |
| `HybridValidator.RulesHold` | app/services/hybrid_validator.py:101-111 | a report holds if and only if every assertion can be read and has a role that is neither error nor fatal in lower case; without a role, as in the official rules, it never does |
| `HybridValidator.FindingIs` | app/services/hybrid_validator.py:103-119 | the finding of an assertion, field by field, with severity error when it has no role |
| `HybridValidator.SchemaFindings` | app/services/hybrid_validator.py:65-78 | one finding for each log entry, or the one of a broken check |
| `HybridValidator.VerdictIs` | app/services/hybrid_validator.py:49-131 | the flags of the two layers, their conjunction, and the findings of the schema before those of the rules |
| `HybridValidator.ErrorCount` | app/services/hybrid_validator.py:31-33 | zero exactly when no finding blocks |
| `HybridValidator.CountIs` | app/services/hybrid_validator.py:31-33 | each finding whose severity is error or fatal in lower case counts once |
| `HybridValidator.ValidIffNoErrors` | app/services/hybrid_validator.py:126-131 | for all outcomes of the two layers, valid is the same as no blocking finding, unless and only unless the schema check rejects without a log entry and the rules report nothing blocking |
| `Service.Validate` | app/services/hybrid_validation_service.py:126-252 | the branches, early returns and handlers compute the service's answer, whose verdict agrees with its findings exactly unless the schema check rejected silently |
| `Service.ResultConsistent` | app/services/hybrid_validation_service.py:148-252 | through every failure branch an invalid result carries a blocking finding and a valid one none, exactly unless the schema check rejected silently |
| `Service.SilentIsInvalid` | app/services/hybrid_validator.py:65-74 | a silent rejection is invalid without a blocking finding |
| `Service.LayersThatRun` | app/services/hybrid_validation_service.py:65-69 | in each of the four situations of schema and rules files, which layers decide |
| `Service.WorkerPassedOn` | app/services/hybrid_validation_service.py:211-225 | the worker's answer is passed on with format and profile |
| `Service.FailuresNamed` | app/services/hybrid_validation_service.py:148-252 | every failure is reported as the one finding that names it |
| `Endpoint.Respond` | app/api.py:242-315 | the reply and the metrics record of a validation in Pro and Teaser mode |
| `Endpoint.TeaserAgainstPro` | app/api.py:245-315 | silent rejections aside, Teaser-valid implies Pro-valid, and the two differ exactly on files whose findings all do not block |
| `Endpoint.TeaserBeatsPro` | app/api.py:265-278 | Teaser accepts what Pro rejects exactly on silent rejections without findings |
| `Endpoint.TeaserShows` | app/api.py:265-307 | a Teaser reply shows the first finding with its rule, says how many it hides, and is valid only without findings |
| `Endpoint.TeaserTells` | app/api.py:279-296 | the number of findings can be told from a Teaser reply: replies with different numbers differ |
| `Endpoint.ProShows` | app/api.py:245-263 | a Pro reply gives the verdict and every message in order |
| `Endpoint.RulesThen` | app/api.py:248 | the recorded rules are those of the findings that name one, in order |
| `Endpoint.GateDelivers` | app/services/generator.py:91-103 | silent rejections aside, the gate delivers exactly the files without a blocking finding, and refuses with the message of the first finding |
| `Humanize.HumanizeErrors` | app/services/validator.py:59-78 | the nested loops compute the guidance function |
| `Humanize.GuidanceIs` | app/services/validator.py:70-77 | the guidance of a message is that of the first pattern it contains, and the message itself when it contains none |
| `Humanize.MappedThen` | app/services/validator.py:66-77 | one message after another, the empty ones left out |
| `Humanize.DistinctIs` | app/services/validator.py:78 | each element once, all of them, by first occurrence |
| `Humanize.OnlyDistinct` | app/services/validator.py:78 | no other list has these three properties |
| `Humanize.HumanizedIs` | app/services/validator.py:59-78 | the guidance of every message that is not empty and nothing else, without repetition, in order of first occurrence |
| `Humanize.Idempotent` | app/services/validator.py:59-78 | with any table whose messages are their own guidance, humanizing twice is humanizing once |
| `ErrorMap.NoCrossTalk` | app/services/validator.py:29-42 | no message of the table contains the pattern of another entry |
| `ErrorMap.FirstEntries` | app/services/validator.py:29-32 | the first three of the twelve entries |
| `ErrorMap.NameEntry` | app/services/validator.py:33 | the fourth |
| `ErrorMap.MiddleEntries` | app/services/validator.py:34-37 | the next four |
| `ErrorMap.LastEntries` | app/services/validator.py:38-41 | the last four |
| `ErrorMap.DateGuidance` | app/services/validator.py:30 | any message that contains udt:DateTimeString becomes the sentence about dates |
| `ErrorMap.HumanizeTwice` | app/services/validator.py:29-78 | with the validator's table humanizing is idempotent |
| `LiteValidator.CheckSchematron` | app/services/validator.py:80-118 | the texts of the blocking assertions in order; a failed run blocks nothing |
| `LiteValidator.ValidateFile` | app/services/validator.py:120-198 | valid exactly when the file is read, the schema passes and no applicable rule blocks; without errors exactly when valid or when the schema fails with an empty message |
| `LiteValidator.PassingIs` | app/services/validator.py:176-190 | what passing means, with the two profiles that have rules written out |
| `LiteValidator.DetectedIs` | app/services/validator.py:157-174 | the profile comes from the library or, failing that, from the guideline identifier |
| `LiteValidator.AdvisoryIs` | app/services/validator.py:94-96 | an assertion is advice only if its severity is warning or info |
| `LiteValidator.BlockingTextsThen` | app/services/validator.py:98-113 | the blocking texts in order, with the default for a missing text |
| `LiteValidator.RenderedPasses` | app/services/validator.py:182-190 | a rendered invoice that the schema accepts passes exactly when its metadata meet the four fatal rules |

## Left out

- lxml, SaxonC, Jinja2, pypdf and the `facturx` library: what they return (format, profile, schema verdict, rule report, extraction failure) is an input of the model.
- Python's floats: amounts are exact decimals with a sign. IEEE rounding, infinities and NaN are not modelled; `float()` and the text of a float are a parameter, asked to read `%.2f` text as its rounded value and to read back the quantities of the invoice.
- The indentation that the template puts between elements, namespaces, comments and CDATA sections, and characters that XML forbids outright; the spelling of tags and the characters that references stand for are parameters of `XmlText`.
- Template branches on fields that the request model does not have (exemption reason, header billing period, mandate, seller country code): they never apply.
- The extractor's namespace map for the older ZUGFeRD layout, its warnings' wording, the tax breakdown and `_meta` parts of its answer, and the 15-character name that it computes and does not use.
- Ed25519, Base64 and the payload format: a key has an expiry instant or none. SHA-256 is taken as injective. The clock of the cache (`time.time`) and that of the expiry test (`datetime.now`) are one monotone clock.
- Routing, upload handling, CORS, logging and startup in app/main.py, and the process pool's life cycle: only its outcomes (result, error, timeout, failure) are modelled. The timeout text uses the default of 30 seconds.
- Handlers: a request that fails outside the try block, before the gauge is taken, is not modelled; the lock of the collector makes each call on it one step, which `Singleton` shows to hold once the module is imported.
- Metrics.Collector.IncGauge: gauges hold integers, because the code only ever adds and subtracts one.
- `lower()` is modelled on ASCII letters, which is all that severities and roles depend on, and `strip()` on the four XML white-space characters.
- The code-list and format rules of the French stylesheet, the other UBL rules and the CDAR schematron: membership tests over finite lists.
- BarNotes.FormsAgree: subject codes that contain `#` or are themselves listed values, and notes without a code whose text contains `#BAR#`, are outside it, because UBL text cannot tell them from other notes; `BarNotes.UblCountsExact` covers them on the UBL side.
- Dates.TextOrderIsDayOrder: accepted texts whose year has a digit of another script have no day number and are outside it.
- Dates.DueDateByDay: a document with several due dates, which the comparison operator refuses with an error, is not modelled.
- app/diagnostics.py, the command-line tools and the Odoo connector.
