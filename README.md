# Amazon Business Report scripts, modelled in Dafny

The repository is a set of stand-alone Python scripts that read Amazon seller
"Business Report" exports (and a few related files), clean their currency,
percentage and count text into numbers, derive conversion rate, average order
value and revenue per session, pick out top, bottom and opportunity products,
and compare weeks. This project models, script by script, the logic that
decides those numbers and selections, and proves what each step promises: how a
cell is read, which rows a filter keeps, how the rows are ordered, and what a
summary counts.

One Dafny module stands for each script:

- AdvancedAnalysis: advanced_analysis_new.py
- AdvancedBusiness: advanced_business_analysis.py
- BestSellers: analyze-best-sellers.py
- BusinessReport: analyze_business_report.py
- BusinessReportUpdated: analyze_business_report_updated.py
- CheckBalance: check_balance.py
- CsvToJson: scripts/csv_to_json.py
- EnhancedTraffic: enhanced_traffic_conversion_analysis.py
- ExpandedScan: analyze_expanded.py
- NewReport: analyze_new_report.py
- OpportunityFinder: opportunity_finder.py
- ShipmentEfficiency: analyze_shipment_efficiency.py
- ShipmentScenario2: analyze_shipment_efficiency_scenario2.py
- SimpleExport: simple_performance_export.py
- TrafficConversion: traffic_conversion_analysis.py
- TrafficReport3: traffic_conversion_analysis_report3.py
- WeeklySales: weekly-sales-comparison.py

Six shared modules model the Python and pandas behaviour the scripts rely on:

- Common: Option, sums, means, masks, head and tail, a stable descending sort, linear-interpolation quantiles, and Python's round() and int().
- Text: str.strip, lower, replace, the substring test and split.
- NumParse: int() and float() on a decimal subset, with the round trip through str().
- Cells: a pandas cell (number, text, boolean or NaN), to_numeric(errors='coerce'), symbol cleaning and guarded ratios.
- Frames: the class Frame, a DataFrame of labelled columns that the cleaning scripts change in place (`df[l] = ...`, `df.columns = ...`, `df = df[mask]`).
- ReportRows: a typed row of a cleaned report, used by the analysis scripts.

Missing values and NaN are `Option.None` or `Cell.Missing`, and a comparison
with NaN is false, as in pandas. Money and ratios are `real`. File reading and
writing, printing and charts are not modelled. A file's contents are a
parameter: a sequence of lines, a table of cells, or a list of records.
Percentile thresholds and quartile labels that pandas computes are also
parameters wherever the source's own choice of them does not matter.

## Model

| member | source | states |
|---|---|---|
| AdvancedAnalysis.SegmentOf | advanced_analysis_new.py:174-183 | a row whose sessions, conversion and both cut points are numbers falls in exactly one of the four segments; a row with a NaN falls in none |
| AdvancedAnalysis.SegmentRows | advanced_analysis_new.py:174-183 | a segment's frame holds exactly the rows of the report that pass that segment's mask |
| AdvancedAnalysis.SegmentsPartition | advanced_analysis_new.py:174-183 | the four segment sizes add up to the number of rows whose values are defined: the masks are disjoint and cover them |
| AdvancedAnalysis.ColourFollowsSegment | advanced_analysis_new.py:130-139 | a row is painted in its segment's colour, and gray also when a value or a cut point is NaN (every comparison with NaN is false) |
| AdvancedAnalysis.QuadrantColours | advanced_analysis_new.py:126-139 | the loop yields one colour per row, in row order, each the one the if/elif chain picks for that row |
| AdvancedAnalysis.ColoursMatchSegments | advanced_analysis_new.py:130-139 | green, red and blue rows are exactly the Star Performers, Traffic Opportunities and Conversion Stars of the segment analysis; gray rows are the Question Marks and the rows with a NaN |
| AdvancedAnalysis.Summarize | advanced_analysis_new.py:186-189 | a segment's mean order value and mean conversion are NaN exactly when none of its rows has that value; an empty segment has zero sales and no top products |
| AdvancedAnalysis.SummaryTopCorrect | advanced_analysis_new.py:197 | nlargest(3) on sales gives min(3, rows with sales) rows of the segment, largest first, and no other row of the segment sells more than a row shown |
| AdvancedAnalysis.Opportunities | advanced_analysis_new.py:212-251 | each opportunity frame holds exactly the rows that pass its rule's mask |
| AdvancedAnalysis.TopOpportunitiesCorrect | advanced_analysis_new.py:214-253 | each panel shows min(limit, matches) matching rows, best first by its ranking column, and no matching row left out ranks above one shown |
| AdvancedAnalysis.OverallConversion | advanced_analysis_new.py:284 | the overall conversion is finite exactly when total sessions are non-zero, and is then total units over total sessions times 100 |
| AdvancedAnalysis.OverallAov | advanced_analysis_new.py:285 | the average order value is finite exactly when total units are non-zero, and is then total sales over total units |
| AdvancedAnalysis.TrafficValue | advanced_analysis_new.py:300 | 5% of the sessions at the mean order value: NaN exactly when the mean is NaN, never negative for non-negative inputs, zero for zero sessions |
| AdvancedAnalysis.BuyBoxPotentialNonNegative | advanced_analysis_new.py:299-300 | the buy-box revenue estimate is NaN only when no row has an order value, is never negative when no order value is, and is zero when no row lacks the buy box |
| AdvancedAnalysis.NoBuyBoxSessions | advanced_analysis_new.py:299 | the sessions of the rows without the buy box total zero when there are none and more than zero otherwise |
| AdvancedAnalysis.NonPrimeSellers | advanced_analysis_new.py:306 | exactly the non-Prime rows selling more than 100 |
| AdvancedAnalysis.PrimePotentialBound | advanced_analysis_new.py:306-307 | the Prime lift is 15% of their sales, so more than 15 for each such row |
| AdvancedBusiness.RevenueEfficiency | advanced_business_analysis.py:80 | sales over sessions plus one: NaN when either is NaN, otherwise a finite figure that times (sessions + 1) gives the sales, and the sales themselves for a row without sessions |
| AdvancedBusiness.RevenueEfficiencyBounds | advanced_business_analysis.py:80 | for non-negative sales and sessions the figure lies between 0 and the sales |
| AdvancedBusiness.RevenueEfficiencyColumn | advanced_business_analysis.py:80 | the new column has one figure per row, each that row's RevenueEfficiency |
| AdvancedBusiness.StarPerformers | advanced_business_analysis.py:106 | exactly the rows in the top sales quartile whose conversion quartile is High or Top |
| AdvancedBusiness.Underperformers | advanced_business_analysis.py:113 | exactly the rows in the lowest quartile of both sales and conversion |
| AdvancedBusiness.TiersApart | advanced_business_analysis.py:106-113 | no row is both a star and an underperformer, so the two lists together are never longer than the frame |
| AdvancedBusiness.CrosstabRowAddsUp | advanced_business_analysis.py:100 | in the crosstab with margins, the four cells of a sales-quartile row add up to that row's margin |
| AdvancedBusiness.BandOf | advanced_business_analysis.py:133-135 | pd.cut with bins 0, 25, 50, 75, 100: a value gets a band exactly when 0 < x <= 100, and then lower edge < x <= upper edge |
| AdvancedBusiness.BandOfInterval | advanced_business_analysis.py:133-135 | a value's band is b exactly when the value lies in b's right-closed interval |
| AdvancedBusiness.BuyBoxRows | advanced_business_analysis.py:126-128 | exactly the rows with a buy-box percentage above 0; empty exactly when no row has one |
| AdvancedBusiness.BandRows | advanced_business_analysis.py:137 | a band's group holds exactly the buy-box rows whose value falls in that band |
| AdvancedBusiness.BandsPartition | advanced_business_analysis.py:133-137 | every buy-box row up to 100% lands in exactly one band: the four group sizes add up to the number of such rows |
| AdvancedBusiness.StatsOfBand | advanced_business_analysis.py:137-141 | one table line: its band, a sales count no larger than the group, and a mean sales that is NaN exactly when that count is 0 |
| AdvancedBusiness.BandTable | advanced_business_analysis.py:137-141 | four lines, one per band in label order, each the statistics of that band's group |
| AdvancedBusiness.BuyBoxImpact | advanced_business_analysis.py:126-141 | nothing exactly when no row has buy-box data (the early return); otherwise the four-line table of the buy-box rows |
| AdvancedBusiness.Difference | advanced_business_analysis.py:193-194 | a float subtraction with NaN: a number exactly when both sides are, and then r + y == x |
| AdvancedBusiness.Lift | advanced_business_analysis.py:193-195 | the Prime lift is finite exactly when both means are numbers and the non-Prime mean is not 0, and is then (prime - other) / other * 100 |
| AdvancedBusiness.LiftSign | advanced_business_analysis.py:193-197 | with a positive non-Prime mean, the lift is positive exactly when Prime converts better, and 0 exactly when both are equal |
| AdvancedBusiness.PrimeGroup | advanced_business_analysis.py:187-195 | a groupby('is_prime') group is empty exactly when no row has that flag, so `.loc[True]` or `.loc[False]` fails then |
| AdvancedBusiness.FlaggedRows | advanced_business_analysis.py:200-222 | each filter holds exactly the rows that pass its mask at the given percentile cuts |
| AdvancedBusiness.TopCategoryBest | advanced_business_analysis.py:211-217 | the top category is a category of the frame and no category has larger total sales |
| AdvancedBusiness.AssembledShape | advanced_business_analysis.py:184-224 | the list opens with the lift, lists a filter's count exactly when that count is positive, names the leading category once, and has between 2 and 5 entries |
| AdvancedBusiness.InsightListShape | advanced_business_analysis.py:184-224 | on a frame: each filter entry carries that filter's row count, and the category entry is a category of the frame with its total sales, and no category sold more |
| AdvancedBusiness.GenerateInsights | advanced_business_analysis.py:180-230 | `.loc[True]` fails exactly when no row is Prime, `.loc[False]` when all are, `index[0]` when no row has a category; otherwise the result is the insight list of the frame |
| BestSellers.ParseCurrency | analyze-best-sellers.py:4-13 | blank text reads as 0.0, and so does text that float() cannot read once '£' and ',' are gone |
| BestSellers.ParseNumber | analyze-best-sellers.py:15-24 | blank text reads as 0, and so does text that int() cannot read once ',' is gone |
| BestSellers.CurrencyAgreesWithWeekly | analyze-best-sellers.py:4-13 | this parse_currency and the weekly comparison's (which strips after deleting the symbols) give the same value on every text |
| BestSellers.NumberWithSeparator | analyze-best-sellers.py:15-24 | a thousands-separated count "a,b" reads as the integer whose digits are ab |
| BestSellers.NumberRoundTrip | analyze-best-sellers.py:15-24 | every integer's printed form reads back as that integer |
| BestSellers.FractionalNumberIsZero | analyze-best-sellers.py:15-24 | a count written with a decimal point reads as 0, not truncated, because int() rejects it |
| BestSellers.TwelvePointFiveIsZero | analyze-best-sellers.py:15-24 | the count "12.5" reads as 0 |
| BestSellers.PoundsOfInteger | analyze-best-sellers.py:4-13 | "£n" for a whole number n reads as n |
| BestSellers.DefaultsReadZero | analyze-best-sellers.py:40-49 | the defaults for an absent column, '0' and '£0', both read as zero |
| BestSellers.ConversionRateMeans | analyze-best-sellers.py:64 | the rate is 0 without sessions; otherwise rate × sessions = 100 × units, and it lies in [0, 100] when units do not exceed sessions |
| BestSellers.ProductOf | analyze-best-sellers.py:33-65 | a row yields no product exactly when it lacks a SKU or a child ASIN; otherwise a product with both, whose units, sales and sessions are the row's own and B2B figures added |
| BestSellers.ProductsSkipOnly | analyze-best-sellers.py:33-65 | every row is either a product or skipped: the products plus the skipped rows are all the rows |
| BestSellers.ProductsIdentified | analyze-best-sellers.py:53-54 | every product kept has both a SKU and a child ASIN |
| BestSellers.ReadProducts | analyze-best-sellers.py:33-65 | the row loop builds exactly the products of the rows, in file order |
| BestSellers.ReadRow | analyze-best-sellers.py:34-65 | one pass of the loop body gives the row's product or the skip |
| BestSellers.ReadText | analyze-best-sellers.py:34-37 | an identifier field is the stripped text, empty when the column is absent |
| BestSellers.ReadCount | analyze-best-sellers.py:40-41 | a count field reads the column as parse_number does, 0 when absent |
| BestSellers.ReadAmount | analyze-best-sellers.py:44-45 | a sales field reads the column as parse_currency does, 0.0 when absent |
| BestSellers.AverageSale | analyze-best-sellers.py:89 | the average is undefined (division by zero) exactly when the top list is empty |
| BestSellers.AverageSaleMeans | analyze-best-sellers.py:89 | the average times the number of products is the combined sales |
| BestSellers.AnalyzeBestSellers | analyze-best-sellers.py:26-109 | the report: products sorted by (sales, units) descending, the first 100 as the top list, its totals and average, the ASIN and SKU lists and the missing counts |
| BestSellers.RankingCorrect | analyze-best-sellers.py:68-81 | the ranking is a permutation of the products, ordered by sales then units descending, keeps file order among equal keys, and the top list has min(100, n) entries |
| BestSellers.TopIsBest | analyze-best-sellers.py:68-81 | no product outside the top list ranks above one inside it |
| BestSellers.AverageFailsIffAllSkipped | analyze-best-sellers.py:53-89 | the average divides by zero exactly when every row was skipped |
| BestSellers.NothingMissing | analyze-best-sellers.py:94-109 | both missing counts are always 0 and both identifier lists cover the whole top list, since skipped rows already lacked them |
| BusinessReport.Lookup | analyze_business_report.py:35-66 | a header has no new name exactly when it is in none of the mapping's pairs; otherwise the name comes from a pair with that header |
| BusinessReport.MappingShape | analyze_business_report.py:35-66 | every header of the mapping starts with a capital or '(' and every new name with a lower-case letter |
| BusinessReport.RenameMeans | analyze_business_report.py:35-66 | a known header gets a lower-case name, any other label stays, and renaming twice is renaming once |
| BusinessReport.CleanColumnNames | analyze_business_report.py:35-70 | the frame keeps its rows and columns and each label becomes its renamed form |
| BusinessReport.CleanPercentageColumns | analyze_business_report.py:73-91 | only the listed percentage columns that are present change, each cell read as a number once '%' is gone, NaN when unreadable |
| BusinessReport.CleanCurrencyColumns | analyze_business_report.py:93-106 | only the listed currency columns that are present change, each cell read as a number once '£' and ',' are gone |
| BusinessReport.CleanNumericColumns | analyze_business_report.py:108-122 | only the listed count columns that are present change, each cell read by to_numeric with nothing removed |
| BusinessReport.CleanedTableMeans | analyze_business_report.py:73-122 | after the three passes a percentage column is read with '%' removed, a currency column with '£' and ',' removed, a count column as it is, and any other column is unchanged |
| BusinessReport.SeparatedCountIsMissing | analyze_business_report.py:117-119 | a count written with a thousands separator becomes NaN in the count pass, since the commas are not removed there |
| BusinessReport.CommaBlocksDecimal | analyze_business_report.py:117-119 | a text starting with a digit that holds a comma is no float |
| BusinessReport.SeparatedAmountIsNumber | analyze_business_report.py:99-103 | the same amount written "£a,b.f" survives the currency pass as the number ab.f |
| BusinessReport.PercentageIsNumber | analyze_business_report.py:84-88 | a percentage "w.f%" becomes the number w.f |
| BusinessReport.PrimeAnywhere | analyze_business_report.py:129 | 'Prime' in any letter case anywhere in a SKU marks it Prime |
| BusinessReport.NotTextNotPrime | analyze_business_report.py:129 | a missing SKU is never Prime (na=False) |
| BusinessReport.SkuCategory | analyze_business_report.py:136 | the category is the longest run of capitals the SKU starts with, and there is none exactly when the SKU is empty or starts otherwise |
| BusinessReport.NumberedSuffixRemoved | analyze_business_report.py:132-133 | "base - digits Prime" loses that suffix, and then a " Prime" the base itself ends with |
| BusinessReport.PlainSuffixRemoved | analyze_business_report.py:132-133 | "base Prime" with no numbered part loses just " Prime" |
| BusinessReport.NoSuffixUnchanged | analyze_business_report.py:132-133 | a SKU that does not end in " Prime" is its own base |
| BusinessReport.WithSkuInfo | analyze_business_report.py:124-141 | the table gains exactly is_prime, base_sku and sku_category and keeps every other column |
| BusinessReport.ExtractSkuInfo | analyze_business_report.py:124-141 | the frame's table becomes WithSkuInfo of the old table: is_prime, base_sku and sku_category are set from the sku column and every other column is kept |
| BusinessReport.CalculateDerivedMetrics | analyze_business_report.py:143-171 | the frame's table becomes WithDerivedMetrics of the old table: six columns set in the source's order from the sessions, units, sales and buy-box columns, every other column kept |
| BusinessReport.DerivedMetricGuards | analyze_business_report.py:148-157 | each ratio is 0 unless its denominator is a positive number; the conversion rate is then a percentage when units do not exceed sessions |
| BusinessReport.DerivedMetricsMeans | analyze_business_report.py:143-171 | the derived-metric step keeps every column it does not set and copies the buy-box share; a row's conversion rate is in [0, 100] when its units do not exceed its positive sessions, and high_conversion holds exactly when the rate exceeds the 75th percentile |
| BusinessReport.MissingColumnsZero | analyze_business_report.py:180-186 | no column is counted as having missing values exactly when no cell of any column is missing |
| BusinessReport.DuplicateCountDistinct | analyze_business_report.py:188 | the duplicated rows are exactly the rows beyond the distinct ones |
| BusinessReport.IdentifyDataQualityIssues | analyze_business_report.py:173-212 | the checks append exactly the issues of the frame's table, in the order missing, duplicates, buy box, conversion, negatives |
| BusinessReport.CheckNegatives | analyze_business_report.py:203-208 | the loop reports the present sign-checked columns with a negative value, in list order |
| BusinessReport.NegativeIssuesShape | analyze_business_report.py:203-208 | at most one issue per checked name, each a negative-value issue naming a listed column, no column twice |
| BusinessReport.HeadIssuesShape | analyze_business_report.py:180-200 | at most four issues, no kind twice, and none exactly when nothing is missing, nothing repeats and nothing exceeds 100 |
| BusinessReport.IssuesAtMostOncePerKind | analyze_business_report.py:173-212 | however many rows offend, each kind of issue is reported at most once, so at most seven |
| BusinessReport.NoIssuesIff | analyze_business_report.py:173-212 | no issue exactly when no cell is missing, no row repeats, neither percentage column exceeds 100 and no checked column is negative |
| BusinessReport.NegativeIssuesEmpty | analyze_business_report.py:203-208 | no negative-value issue exactly when no present checked column holds a negative number |
| BusinessReport.Renamed | analyze_business_report.py:35-66 | the renamed header row has one label per label, each renamed |
| BusinessReport.CleanReport | analyze_business_report.py:284-286 | the labels become the renamed labels and the table becomes CleanedTable of the renamed loaded table, so each listed column is converted by its own pass and the rest are kept |
| BusinessReport.EnrichReport | analyze_business_report.py:287-288 | the table becomes Enriched of the old table: the SKU columns and then the six derived metrics, every other column kept, the row count unchanged |
| BusinessReport.AnalyzeReport | analyze_business_report.py:270-291 | a KeyError exactly when a required column is absent from the cleaned loaded table, which the frame then holds; otherwise the frame holds the enriched cleaned table and the result is exactly its quality issues |
| BusinessReport.CleanedNameOf | analyze_business_report.py:256-262 | for a path whose only '.' starts ".csv" the saved name is base + "_cleaned.csv" |
| BusinessReportUpdated.NormaliseHeader | analyze_business_report_updated.py:21 | each header keeps its length: every character is replaced by one character |
| BusinessReportUpdated.NormaliseHeaderMeans | analyze_business_report_updated.py:21 | a normalised header holds no en-dash, space or capital, every other character is lowered in place, and normalising twice is normalising once |
| BusinessReportUpdated.SessionsHeader | analyze_business_report_updated.py:21-37 | 'Sessions – Total' becomes 'sessions_-_total', the name the sessions test looks for |
| BusinessReportUpdated.NormaliseHeaders | analyze_business_report_updated.py:21 | the frame keeps its rows and columns, and the labels become the normalised header row |
| BusinessReportUpdated.CleanPercentages | analyze_business_report_updated.py:26-27 | the cleaned column has one cell per cell |
| BusinessReportUpdated.PercentageCleanTwice | analyze_business_report_updated.py:24-27 | cleaning a percentage column a second time leaves it as it is, so a header listed twice is cleaned as if once |
| BusinessReportUpdated.CleanPercentageColumns | analyze_business_report_updated.py:24-27 | every column whose header contains 'percentage' is cleaned and nothing else changes |
| BusinessReportUpdated.CleanCurrencyColumns | analyze_business_report_updated.py:30-34 | the two sales columns that are present have '£' and ',' removed and are read as numbers, on the columns and on the table; nothing else changes |
| BusinessReportUpdated.WithMetricsMeans | analyze_business_report_updated.py:36-43 | on the table the script reaches without a TypeError, each metric column is the guarded ratio exactly when both its inputs exist, is left as it was otherwise, and every other column is kept |
| BusinessReportUpdated.MetricsKeepSku | analyze_business_report_updated.py:36-46 | the metric steps never create or remove the sku column |
| BusinessReportUpdated.ConversionKeepsOrderInputs | analyze_business_report_updated.py:37-43 | adding the conversion column changes neither the presence nor the contents of the order value's inputs, so its TypeError is decided on the cleaned table |
| BusinessReportUpdated.AddConversion | analyze_business_report_updated.py:37-39 | a TypeError exactly when sessions and units exist and one of them holds text, the table then unchanged; otherwise the table becomes WithConversion of the old one |
| BusinessReportUpdated.AddOrderValue | analyze_business_report_updated.py:41-43 | a TypeError exactly when units and sales exist and one of them holds text, the table then unchanged; otherwise the table becomes WithOrderValue of the old one |
| BusinessReportUpdated.CalculateMetrics | analyze_business_report_updated.py:36-43 | a TypeError exactly when either metric meets an input holding text; otherwise the table becomes WithMetrics of the old one |
| BusinessReportUpdated.SummaryOf | analyze_business_report_updated.py:49-51 | an absent column gives 0 for its total or average |
| BusinessReportUpdated.AverageConversionBounded | analyze_business_report_updated.py:38-51 | with non-negative units never above positive sessions, the average conversion exists exactly when there are rows and lies in [0, 100] |
| BusinessReportUpdated.MainOutputFile | analyze_business_report_updated.py:11-12 | the input 'BusinessReport-23-07-2025 (1).csv' is saved as 'BusinessReport-23-07-2025_1_cleaned.csv' |
| BusinessReportUpdated.CleanedSalesHoldNoText | analyze_business_report_updated.py:30-43 | after the currency pass the sales column holds no text, so the metrics raise exactly when a units column holding text meets sessions or sales, or a sessions column holding text meets units |
| BusinessReportUpdated.CleanReport | analyze_business_report_updated.py:20-34 | the labels become the normalised header row and the table becomes the percentage and currency passes over the normalised loaded table |
| BusinessReportUpdated.Summarise | analyze_business_report_updated.py:49-51 | the printed figures are SummaryOf the frame's table |
| BusinessReportUpdated.MetricsAndSummary | analyze_business_report_updated.py:36-51 | from the cleaned frame: the TypeError, else the missing-sku KeyError, each exactly when it occurs, and otherwise the finished table and its summary |
| BusinessReportUpdated.AnalyzeUpdatedReport | analyze_business_report_updated.py:10-55 | the uncaught TypeError exactly when the cleaned loaded table makes the metrics raise; else the KeyError of line 46 exactly when it has no sku column; otherwise the frame holds the metrics and Prime flag of that table and the summary is its SummaryOf |
| CheckBalance.WordEnd | check_balance.py:18-19 | the \w+ run starting at j: every character up to the end is a word character and the one after it is not |
| CheckBalance.CloseAfter | check_balance.py:18-19 | the closing bracket of a tag, if one is found, lies after the name and within the line |
| CheckBalance.HtmlAt | check_balance.py:18 | a match of the HTML tag pattern starts at a '<', ends after it within the line and carries a \w+ name |
| CheckBalance.BlockAt | check_balance.py:19 | a match of the Svelte block pattern starts with "{#" or "{/", is closing exactly when it starts "{/", and carries a \w+ name |
| CheckBalance.HtmlTags | check_balance.py:23-28 | every HTML match found in a line is recorded on that line as "<name>" |
| CheckBalance.Blocks | check_balance.py:31-37 | every block match found in a line is recorded on that line as "{name}" |
| CheckBalance.LinesTags | check_balance.py:21-37 | the tags of consecutive lines carry those lines' numbers, in non-decreasing order |
| CheckBalance.ExtractLines | check_balance.py:12-39 | every tag's line number is 1-based and within the file, and line numbers never go down |
| CheckBalance.NoBlockWithoutMarker | check_balance.py:19 | a line with no "{#" or "{/" records no block |
| CheckBalance.ElseIsNotABlock | check_balance.py:19 | "{:else}" records nothing |
| CheckBalance.NoHtmlWithoutBracket | check_balance.py:18 | a line without '<' records no HTML tag |
| CheckBalance.ExtractTagsAndBlocks | check_balance.py:12-39 | the loops record, line by line, the HTML matches and then the block matches, as Extract states |
| CheckBalance.ScanLine | check_balance.py:21-37 | one line's pass gives its HTML tags followed by its blocks |
| CheckBalance.ScanHtml | check_balance.py:23-28 | the finditer loop over the HTML pattern gives HtmlTags of the line |
| CheckBalance.ScanBlocks | check_balance.py:31-37 | the finditer loop over the block pattern gives Blocks of the line |
| CheckBalance.NameOf | check_balance.py:50 | stripping the brackets and lowering gives the \w+ name in lower case, whichever brackets surround it |
| CheckBalance.Step | check_balance.py:49-66 | one tag adds at most one issue and either leaves the stack, pushes that tag, or pops the top |
| CheckBalance.Drain | check_balance.py:68-71 | one Unclosed issue per tag left open, the most recently opened first |
| CheckBalance.RunConcat | check_balance.py:49-66 | running the loop over two tag lists in turn is running it over their concatenation |
| CheckBalance.CheckBalanceOf | check_balance.py:41-73 | the two loops give Balance of the tags |
| CheckBalance.VisitTag | check_balance.py:49-66 | the loop body over a tag is Step |
| CheckBalance.CloseRemaining | check_balance.py:68-71 | the final loop appends Drain of the stack to the issues found so far |
| CheckBalance.SelfClosingIgnored | check_balance.py:47-54 | a self-closing name changes nothing, opening or closing |
| CheckBalance.UnexpectedOnEmpty | check_balance.py:59-60 | a closing tag on an empty stack adds exactly one Unexpected issue and the stack stays empty |
| CheckBalance.CloseAlwaysPops | check_balance.py:61-66 | a closing tag on a non-empty stack always pops it, adding one Mismatched issue exactly when the names differ |
| CheckBalance.ForestNeutral | check_balance.py:49-66 | properly nested markup leaves stack and issues as they were |
| CheckBalance.NestedIsBalanced | check_balance.py:41-73 | a properly nested tag sequence yields no issues |
| CheckBalance.PairIsBalanced | check_balance.py:49-66 | an opening tag followed by a closing one of the same non-self-closing name balances |
| CheckBalance.CloseIgnoresCase | check_balance.py:50-65 | names compare without case: "<DIV>" closes "<div>" |
| CheckBalance.HtmlClosesBlock | check_balance.py:50-65 | names compare across bracket kinds: "<if>" closes "{if}" |
| CsvToJson.CleanValue | scripts/csv_to_json.py:41-64 | null exactly for a missing or blank value; otherwise the typing (Typed) of the stripped text, so text comes back stripped, an int only when int() reads the stripped value and a float only when float() does |
| CsvToJson.Typed | scripts/csv_to_json.py:49-64 | dot-free text int() reads gives that integer and dotted text float() reads gives that float; when the numeric reading fails, true exactly for true/yes/1 and false exactly for false/no/0 (any case); the text itself exactly in the remaining case; never null |
| CsvToJson.CleanValueInteger | scripts/csv_to_json.py:49-53 | the printed form of every integer cleans to that integer |
| CsvToJson.CleanValueDecimal | scripts/csv_to_json.py:49-51 | a numeral with a decimal point cleans to its value as a float |
| CsvToJson.CleanValueStripped | scripts/csv_to_json.py:43-46 | a value and its stripped text clean alike |
| CsvToJson.BooleansOnlyFromWords | scripts/csv_to_json.py:49-61 | a boolean comes only from 'true', 'yes', 'false' or 'no' in any case: the '1' and '0' entries are unreachable |
| CsvToJson.DigitWordsAreInts | scripts/csv_to_json.py:49-58 | "1" and "0", however padded, clean to integers |
| CsvToJson.CleanValueYes | scripts/csv_to_json.py:58-59 | " Yes " cleans to true |
| CsvToJson.CleanValueOne | scripts/csv_to_json.py:53-58 | "1" cleans to the integer 1 and "0" to 0, not to booleans |
| CsvToJson.CleanRecord | scripts/csv_to_json.py:22-24 | the object's keys are exactly the stripped column names |
| CsvToJson.CleanRecordLastWins | scripts/csv_to_json.py:22-24 | a key holds the cleaned value of the last column whose stripped name it is |
| CsvToJson.CleanRecordLoop | scripts/csv_to_json.py:22-24 | the loop over one row builds CleanRecord of it |
| CsvToJson.ConvertRecords | scripts/csv_to_json.py:15-25 | one cleaned object per record, in file order |
| EnhancedTraffic.SessionsReading | enhanced_traffic_conversion_analysis.py:24 | a text cell converts exactly when float() reads it once commas are gone, and then to that value; a number converts to itself |
| EnhancedTraffic.UnitsReading | enhanced_traffic_conversion_analysis.py:25 | a text cell converts exactly when float() reads it as it is, so "1,234" is refused |
| EnhancedTraffic.SalesReading | enhanced_traffic_conversion_analysis.py:26 | a cell that is not text becomes NaN under .str; a text cell converts exactly when float() reads it once '£' and ',' are gone |
| EnhancedTraffic.ProductOf | enhanced_traffic_conversion_analysis.py:29-34 | a row survives exactly when sessions, units and sales are all numbers and neither divisor is zero; it then carries its figures and the two rounded ratios |
| EnhancedTraffic.RowProducts | enhanced_traffic_conversion_analysis.py:29-34 | one outcome per row, each that row's product or its drop |
| EnhancedTraffic.Survivors | enhanced_traffic_conversion_analysis.py:33-34 | the products of the rows not dropped, no more than there were rows, each product as many times as rows yield it |
| EnhancedTraffic.SurvivorsAppend | enhanced_traffic_conversion_analysis.py:33-34 | dropping rows keeps their order: the survivors of two stretches of rows are those of the first followed by those of the second |
| EnhancedTraffic.Kept | enhanced_traffic_conversion_analysis.py:33-34 | a product is kept exactly when some row yields it, and no more products than rows |
| EnhancedTraffic.KeptNonZero | enhanced_traffic_conversion_analysis.py:29-34 | every kept product has non-zero sessions and units |
| EnhancedTraffic.LoadAndClean | enhanced_traffic_conversion_analysis.py:15-36 | the frame loads exactly when all three conversions succeed; the sales .str access fails exactly when earlier ones succeed and the sales column holds a non-text cell; loaded products have non-zero divisors |
| EnhancedTraffic.SalesSymbolsIgnored | enhanced_traffic_conversion_analysis.py:26 | "£1,234.50"-style text reads as its decimal value |
| EnhancedTraffic.Categorize | enhanced_traffic_conversion_analysis.py:50-61 | Star, Problem Child, Hidden Gem or Dog exactly for the four combinations of high traffic and high conversion |
| EnhancedTraffic.TrafficConversionMatrix | enhanced_traffic_conversion_analysis.py:38-71 | both thresholds at the given percentile of their column, and one category per product |
| EnhancedTraffic.MatrixThresholdsReached | enhanced_traffic_conversion_analysis.py:43-52 | on a non-empty frame some product reaches each threshold, so neither high flag is empty |
| EnhancedTraffic.Candidates | enhanced_traffic_conversion_analysis.py:189-192 | exactly the products with at least the minimum sessions and conversion below the 30th percentile |
| EnhancedTraffic.Estimate | enhanced_traffic_conversion_analysis.py:200-207 | the estimate belongs to the product it was made for |
| EnhancedTraffic.Estimates | enhanced_traffic_conversion_analysis.py:200-207 | one estimate per candidate, in order |
| EnhancedTraffic.OpportunityProductsCorrect | enhanced_traffic_conversion_analysis.py:185-214 | the opportunities are exactly the qualifying products, one per row, each estimated at the 70th-percentile conversion, by falling additional revenue; as a multiset they are the estimates of the qualifying rows, so no row is lost or repeated |
| EnhancedTraffic.NoOpportunityMeans | enhanced_traffic_conversion_analysis.py:189-196 | no opportunity means every product with enough sessions converts at least at the 30th percentile |
| ExpandedScan.FindStart | analyze_expanded.py:15-19 | the 1-based number of the first line containing '{#if isExpanded}', and none exactly when no line contains it |
| ExpandedScan.Classify | analyze_expanded.py:36-53 | a line opens a div exactly when it contains '<div', does not end with '</div>' and has no '/>'; each other branch is taken only when its marker is present and the earlier markers are not |
| ExpandedScan.ScanFrom | analyze_expanded.py:31-64 | an end line, when found, is a later line within the file whose trimmed text passes the stop test in the state reached there |
| ExpandedScan.EndIsFirst | analyze_expanded.py:60-64 | no line before the end line passes the stop test, so the scan stops at the first one |
| ExpandedScan.ScanOrdered | analyze_expanded.py:35-58 | both stacks only ever hold processed line numbers, oldest first |
| ExpandedScan.CloseOnEmpty | analyze_expanded.py:42-58 | a close with its stack empty is reported and that stack stays empty |
| ExpandedScan.OneLineDivCloses | analyze_expanded.py:36-44 | a one-line "<div>...</div>" takes the div-close branch, popping an earlier div |
| ExpandedScan.AnalyzeExpandedSection | analyze_expanded.py:6-68 | nothing is scanned when no start line is found; otherwise the scan from the start line, whose end line lies between start and file end and passes the stop test |
| ExpandedScan.ApplyLine | analyze_expanded.py:35-58 | one line's branch changes the stacks and error lists as Apply states |
| ExpandedScan.ScanLines | analyze_expanded.py:31-64 | the loop from the start index ends in the state and end line ScanFrom gives |
| NewReport.CleanDataTypes | analyze_new_report.py:65-98 | the table becomes DataTypesCleaned of the old one: the percentage, amount and count passes run in that order over the listed columns that are present, and nothing else changes |
| NewReport.DataTypesCleanedMeans | analyze_new_report.py:65-98 | each listed column is converted by its own pass and holds no text afterwards, while units_ordered, in no list, stays as loaded |
| NewReport.AmountAgreesUnquoted | analyze_new_report.py:87 | an amount without quotes is read exactly as the first script reads it |
| NewReport.QuotesDropped | analyze_new_report.py:87 | quotes around an amount are dropped like the pound sign and separators |
| NewReport.SeparatedCountIsNumber | analyze_new_report.py:92-95 | a count "a,b" becomes the number ab here, while the first script's count pass makes it NaN |
| NewReport.DigitsParse | analyze_new_report.py:95 | a digit string reads as its value |
| NewReport.MatchesPrimeIsPrime | analyze_new_report.py:117 | the alternation of 'Prime' and 'prime' with case=False marks exactly the SKUs the first script's 'Prime' test marks |
| NewReport.CalculateMetrics | analyze_new_report.py:100-123 | it raises exactly when sessions, units, sales or sku is absent or one of the first three holds text (KeyError or TypeError); otherwise the table becomes WithMetrics of the old one, five columns set in the source's order |
| NewReport.WithMetricsMeans | analyze_new_report.py:100-123 | the metrics keep every column they do not set; a ratio is 0 where its denominator is not a positive number, and the Prime flag is the first script's |
| NewReport.Mask | analyze_new_report.py:182-208 | a filter mask has one entry per row, true exactly where the row passes |
| NewReport.OpportunitiesOf | analyze_new_report.py:187-212 | at most three messages, each listed exactly when its count is positive |
| NewReport.IdentifyOpportunities | analyze_new_report.py:174-217 | the messages are the opportunities of the frame at the given percentiles |
| NewReport.OpportunitiesOfShape | analyze_new_report.py:187-212 | each kind of message appears exactly when its count is positive, none at all exactly when all three are 0, and each carries one of the counts |
| NewReport.CountTruePositive | analyze_new_report.py:187-211 | a filter's size is positive exactly when some row passes it, and never more than the rows |
| NewReport.NoBuyBoxReported | analyze_new_report.py:194-200 | the no-buy-box message appears exactly when some product has buy box 0 and at least 50 sessions |
| NewReport.NoOpportunitiesIff | analyze_new_report.py:174-217 | the list is empty exactly when no product passes any of the three filters |
| NewReport.OpportunityCountsBounded | analyze_new_report.py:187-212 | every count listed is between 1 and the number of products |
| NewReport.MissingSessionsExcluded | analyze_new_report.py:182-196 | a product with missing sessions passes neither traffic filter, since NaN compares false |
| NewReport.CopySuffixPrefix | analyze_new_report.py:221 | "base (n).csv" becomes the prefix "base_n" |
| NewReport.MainPrefix | analyze_new_report.py:219-229 | the main file name gives the prefix BusinessReport-23-07-2025_1 and the cleaned file BusinessReport-23-07-2025_1_cleaned.csv |
| NewReport.CleanedRaisesOnUnits | analyze_new_report.py:91-107 | once the input columns exist, the cleaned frame makes calculate_metrics raise exactly when the loaded units_ordered column holds text, since that column is never converted |
| NewReport.CleanReport | analyze_new_report.py:263-264 | the labels become the renamed labels and the table becomes the cleaned renamed loaded table |
| NewReport.AnalyzeNewReport | analyze_new_report.py:253-285 | the caught exception exactly when a metric input is absent or holds text after cleaning, or the buy-box column is absent; otherwise the frame holds the metrics of the cleaned loaded table and the result is exactly its opportunities |
| OpportunityFinder.MatchedHasValue | opportunity_finder.py:21-107 | a row a search finds has a value in the column the search sorts by |
| OpportunityFinder.FoundCorrect | opportunity_finder.py:15-107 | each search finds every matching row once per occurrence and nothing else, sorted with larger values first, and prints at most ten |
| OpportunityFinder.PotentialUnits | opportunity_finder.py:29 | ten percent of the sessions is at least 0.5 for a listed no-buy-box row |
| OpportunityFinder.ImprovementPotential | opportunity_finder.py:42 | the buy-box gap to 80% converted at 5% of sessions is positive for a listed row and at most 4% of its sessions |
| OpportunityFinder.BundleLift | opportunity_finder.py:73-74 | a 30% rise of the order value over the units sold; at least 0.6 times the order value for two or more units |
| OpportunityFinder.PageViewToSessionRate | opportunity_finder.py:88 | sessions per hundred page views is below 70 for every listed row, and not negative for non-negative sessions |
| OpportunityFinder.PrimeLift | opportunity_finder.py:112-114 | the extra units are 15% of the conversion rate times the sessions, defined exactly when sessions are; the revenue exactly when the order value is too |
| OpportunityFinder.PrimeShare | opportunity_finder.py:127 | the mean of is_prime over a group is a share between 0 and 1 |
| OpportunityFinder.CategoryTable | opportunity_finder.py:123-128 | one line of statistics per category present |
| OpportunityFinder.CategorySearchCorrect | opportunity_finder.py:130-154 | a category search lists exactly the categories whose statistics pass the test, each once, by falling summed sales |
| OpportunityFinder.OpportunityValuesNonNegative | opportunity_finder.py:163-181 | with no negative number in the frame none of the four parts is negative |
| OpportunityFinder.SharesAddUp | opportunity_finder.py:183-188 | four parts' shares of their positive sum add up to 100 |
| OpportunityFinder.ShareBetween | opportunity_finder.py:187 | the share of a part no larger than a total is a percentage |
| OpportunityFinder.PrintedShares | opportunity_finder.py:186-188 | the loop prints one share per part, each that part's share of the total |
| OpportunityFinder.CalculateOpportunityValue | opportunity_finder.py:156-192 | four parts and their total; shares that add up to 100 when the total is positive and are 0 otherwise; the uplift fails exactly when current sales are 0 |
| OpportunityFinder.PartsNonNegative | opportunity_finder.py:161-181 | every entry of the dictionary of parts is non-negative when no row holds a negative number |
| OpportunityFinder.Totals | opportunity_finder.py:183-192 | the total is the sum of the parts, the shares are as in CalculateOpportunityValue, and the uplift is total / sales × 100 exactly when sales are not 0 |
| ShipmentEfficiency.ReadAmount | analyze_shipment_efficiency.py:38-39 | a missing cell reads as 0 and a number as itself; the read fails exactly for text float() refuses |
| ShipmentEfficiency.ReadRate | analyze_shipment_efficiency.py:40 | the empty text reads as 0 here, every other cell as in the other two rows |
| ShipmentEfficiency.EmptyTextReadsDifferently | analyze_shipment_efficiency.py:38-40 | an empty efficiency cell reads as 0 while an empty shipments or hours cell raises |
| ShipmentEfficiency.StatusOf | analyze_shipment_efficiency.py:60-65 | a worked day is Above, On or Below Target exactly when its recorded efficiency is above, equal to or below 18 |
| ShipmentEfficiency.AdjustmentMeetsTarget | analyze_shipment_efficiency.py:56-57 | at the target hours the rate is 18, the adjustment brings the current hours to them, and it is positive, zero or negative as the day ran faster than, at or slower than 18 |
| ShipmentEfficiency.DayOf | analyze_shipment_efficiency.py:37-86 | a date is skipped exactly when a conversion raises; it is a no-work day exactly when shipments or hours read as 0, with zero figures; otherwise its status comes from the recorded efficiency and its shipments are truncated |
| ShipmentEfficiency.WorkedDayRounding | analyze_shipment_efficiency.py:71-73 | the rounded efficiency, target hours and adjustment of a worked day are within 0.005 of the exact ones |
| ShipmentEfficiency.Days | analyze_shipment_efficiency.py:36-86 | at most one result per date column |
| ShipmentEfficiency.DaysSkipOnlyFailures | analyze_shipment_efficiency.py:84-86 | exactly the columns whose conversion failed are missing from the results |
| ShipmentEfficiency.DaysAppend | analyze_shipment_efficiency.py:36-86 | columns processed in two runs give the concatenated results |
| ShipmentEfficiency.AnalyzeShipmentEfficiency | analyze_shipment_efficiency.py:36-86 | the loop over the date columns builds Days of them |
| ShipmentEfficiency.AnalyzeColumn | analyze_shipment_efficiency.py:37-86 | one pass of the loop body gives DayOf the column |
| ShipmentEfficiency.WorkingDays | analyze_shipment_efficiency.py:92 | exactly the results whose status is not No Work Day |
| ShipmentEfficiency.StatusCounts | analyze_shipment_efficiency.py:60-65 | the number of working days with each status |
| ShipmentEfficiency.StatusCountsPartition | analyze_shipment_efficiency.py:105-107 | the status counts add up to the working days |
| ShipmentEfficiency.RoundedCountsPartition | analyze_shipment_efficiency.py:105-107 | the counts the script takes from the rounded efficiency add up to the working days too |
| ShipmentEfficiency.RoundedCountsDisagree | analyze_shipment_efficiency.py:60-107 | a day at 18.001 shipments per hour has status Above Target but is counted on target by the rounded comparison |
| ShipmentEfficiency.OverallOf | analyze_shipment_efficiency.py:119-124 | more hours, fewer hours or optimal exactly as the total adjustment is positive, negative or zero |
| ShipmentEfficiency.Summarize | analyze_shipment_efficiency.py:92-124 | no summary exactly when no day was worked; otherwise the counts are the status counts of the working days and split them, the shipment total and the hour totals are the sums of shipments, hours, target hours and adjustments over the working days, the mean efficiency is their efficiency sum over their number, and the closing message follows the adjustment's sign |
| ShipmentScenario2.SharesSumTo100 | analyze_shipment_efficiency_scenario2.py:71-72 | before rounding, the packing and picking shares of a positive total add up to 100 |
| ShipmentScenario2.ShareBounds | analyze_shipment_efficiency_scenario2.py:71-72 | with no negative hours each share lies between 0 and 100 |
| ShipmentScenario2.MixDayOf | analyze_shipment_efficiency_scenario2.py:40-107 | a date is skipped exactly when a conversion raises; total hours are packing plus picking; a no-work day exactly when shipments or total hours are 0, with zero figures; otherwise the status comes from the recorded efficiency and the shares are rounded to one decimal |
| ShipmentScenario2.RoundedSharesNear100 | analyze_shipment_efficiency_scenario2.py:91-92 | on a worked day the two rounded shares add up to 100 within 0.1 |
| ShipmentScenario2.MixDays | analyze_shipment_efficiency_scenario2.py:39-107 | at most one result per date column |
| ShipmentScenario2.MixDaysSkipOnlyFailures | analyze_shipment_efficiency_scenario2.py:105-107 | exactly the columns whose conversion failed are missing from the results |
| ShipmentScenario2.AnalyzeShipmentEfficiencyEnhanced | analyze_shipment_efficiency_scenario2.py:39-107 | the loop over the date columns builds MixDays of them |
| ShipmentScenario2.AnalyzeMixColumn | analyze_shipment_efficiency_scenario2.py:40-107 | one pass of the loop body gives MixDayOf the column |
| ShipmentScenario2.MixWorkingDays | analyze_shipment_efficiency_scenario2.py:113 | exactly the results whose status is not No Work Day |
| ShipmentScenario2.TotalHoursSplit | analyze_shipment_efficiency_scenario2.py:121-123 | summed total hours are the summed packing hours plus the summed picking hours |
| ShipmentScenario2.MixDaysTotals | analyze_shipment_efficiency_scenario2.py:47-87 | every result has total hours equal to packing plus picking |
| ShipmentScenario2.MixRoundedCountsPartition | analyze_shipment_efficiency_scenario2.py:130-132 | the three rounded counts add up to the number of working days |
| ShipmentScenario2.MixRoundedCountsDisagree | analyze_shipment_efficiency_scenario2.py:75-132 | a day at 17.999 shipments per hour has status Below Target but is counted on target by the rounded comparison |
| ShipmentScenario2.MixStatusCounts | analyze_shipment_efficiency_scenario2.py:75-80 | the number of working days with each status |
| ShipmentScenario2.CountPartitionOf | analyze_shipment_efficiency_scenario2.py:130-132 | on working days the three status counts add up to the days |
| ShipmentScenario2.UnusualDaysDisjoint | analyze_shipment_efficiency_scenario2.py:159-160 | no day is both unusually high and unusually low in picking share once the average is at least -10 |
| ShipmentScenario2.UnusualDaysAreWorked | analyze_shipment_efficiency_scenario2.py:159-160 | every day on either list is a working day of the results |
| ShipmentScenario2.MixSummarize | analyze_shipment_efficiency_scenario2.py:113-170 | no summary exactly when no day was worked; otherwise the counts are the status counts of the working days and split them, the totals are the sums over the working days and the three means their sums over their number, the closing message follows the total adjustment's sign, and the two lists are the unusual days |
| ShipmentScenario2.SummaryHoursSplit | analyze_shipment_efficiency_scenario2.py:121-138 | in the summary total hours are the packing total plus the picking total |
| SimpleExport.Categorized | simple_performance_export.py:32-51 | one category per product, each from both thresholds at the 70th percentile |
| SimpleExport.Members | simple_performance_export.py:78 | the products of one category: each listed product is in the frame with that category, and every such product is listed |
| SimpleExport.MembersPartition | simple_performance_export.py:78-114 | every product is in exactly one category: the four member counts add up to the frame |
| SimpleExport.SortedExport | simple_performance_export.py:80-94 | a sorted export is descending in its key and a permutation of the category's members |
| SimpleExport.ExportsCorrect | simple_performance_export.py:53-105 | Stars and Hidden Gems by falling conversion, Problem Children by falling sessions, each a permutation of its category |
| SimpleExport.RoundedMean | simple_performance_export.py:120-124 | the mean of an empty category is NaN |
| SimpleExport.SummaryOf | simple_performance_export.py:114-125 | a summary line names its category and counts its members, totals sessions and revenue, and has NaN averages exactly when the category is empty |
| SimpleExport.CreateSummaryOverview | simple_performance_export.py:107-131 | one line per category in the fixed order, empty ones included, each SummaryOf its members |
| SimpleExport.SummaryCountsAddUp | simple_performance_export.py:113-118 | the four product counts add up to the number of products |
| SimpleExport.UpliftOf | simple_performance_export.py:149-153 | the uplift belongs to its product and its figures are numbers exactly when the Stars' median is |
| SimpleExport.HighTrafficProblems | simple_performance_export.py:138-141 | exactly the Problem Children with at least 1000 sessions |
| SimpleExport.Uplifts | simple_performance_export.py:149-153 | one uplift per opportunity, in order |
| SimpleExport.TopOpportunitiesCorrect | simple_performance_export.py:133-171 | exactly the high-traffic Problem Children, each at the Stars' median, by falling uplift; all uplifts are numbers once there is a Star |
| SimpleExport.OpportunitiesAreHighTraffic | simple_performance_export.py:34-141 | every opportunity has at least 1000 sessions, reaches the traffic threshold and misses the conversion threshold |
| TrafficConversion.Stripped | traffic_conversion_analysis.py:29 | one header per header, each stripped |
| TrafficConversion.TrimHeaders | traffic_conversion_analysis.py:29 | the headers lose their surrounding whitespace and the columns stay as they are |
| TrafficConversion.TrimmedHeadersClean | traffic_conversion_analysis.py:29 | a trimmed header neither starts nor ends with whitespace |
| TrafficConversion.CoerceColumn | traffic_conversion_analysis.py:36 | to_numeric with errors='coerce' keeps the height and leaves no text in the column |
| TrafficConversion.CleanIfText | traffic_conversion_analysis.py:43-56 | a column holding text is cleaned cell by cell, a column of numbers is left alone, and no text remains |
| TrafficConversion.CleaningsAreRewrites | traffic_conversion_analysis.py:31-57 | each cleaning keeps the height and a second pass changes nothing |
| TrafficConversion.UnitSessionNamesPercentage | traffic_conversion_analysis.py:42 | the header listed by name already passes the 'percentage' test |
| TrafficConversion.ValuesCleaned | traffic_conversion_analysis.py:31-57 | the three cleaning loops keep exactly the same columns |
| TrafficConversion.ValuesCleanedRectangular | traffic_conversion_analysis.py:31-57 | cleaning keeps every column's height |
| TrafficConversion.CleanedColumnsHoldNoText | traffic_conversion_analysis.py:31-57 | no count, percentage or sales column holds text after cleaning |
| TrafficConversion.CleanValues | traffic_conversion_analysis.py:31-57 | the frame's table becomes ValuesCleaned of it, with the labels unchanged |
| TrafficConversion.ConversionValues | traffic_conversion_analysis.py:63-74 | a conversion column exists exactly when 'Unit Session Percentage' or both sessions and units exist, and is the former copied when it exists |
| TrafficConversion.ComputedConversionBounded | traffic_conversion_analysis.py:66-71 | a computed rate is a number in [0, 100] when the units are a number between 0 and the sessions |
| TrafficConversion.FindSalesColumn | traffic_conversion_analysis.py:77-81 | the first header holding 'Product Sales' and not 'B2B' |
| TrafficConversion.WithOrderValue | traffic_conversion_analysis.py:76-88 | adding the order value keeps the table rectangular |
| TrafficConversion.OrderValueMeans | traffic_conversion_analysis.py:76-88 | the order value is added exactly when a product-sales header and the units exist, divides the first such column by the units, and changes nothing else |
| TrafficConversion.Enriched | traffic_conversion_analysis.py:62-88 | conversion and then the order value keep the table rectangular |
| TrafficConversion.Cleaned | traffic_conversion_analysis.py:24-90 | the table clean_data leaves is rectangular |
| TrafficConversion.AddConversion | traffic_conversion_analysis.py:62-74 | the column is added exactly when ConversionValues exists; otherwise the early return leaves the frame unchanged |
| TrafficConversion.AddOrderValue | traffic_conversion_analysis.py:76-88 | the frame becomes WithOrderValue of its table |
| TrafficConversion.CleanData | traffic_conversion_analysis.py:24-90 | clean_data leaves Cleaned of the trimmed table |
| TrafficConversion.Enrich | traffic_conversion_analysis.py:62-88 | the frame becomes Enriched of its table |
| TrafficConversion.Products | traffic_conversion_analysis.py:92-112 | one product per row of the cleaned frame, in order |
| TrafficConversion.RankingCorrect | traffic_conversion_analysis.py:101-109 | the ranking holds exactly the high-traffic products, as often as in the report, with conversions falling and every NaN after every number |
| TrafficConversion.Plus | traffic_conversion_analysis.py:454 | float addition with NaN: a number exactly when both sides are |
| TrafficConversion.AddedRevenue | traffic_conversion_analysis.py:436-454 | the total is a number exactly when every tail product's additional revenue is |
| TrafficConversion.TotalAdditional | traffic_conversion_analysis.py:436-454 | the loop over the bottom performers gives AddedRevenue |
| TrafficConversion.UpliftOf | traffic_conversion_analysis.py:462-463 | 0 unless the tail's sales sum above 0; otherwise uplift × sales = total × 100 |
| TrafficConversion.FindTotalColumns | traffic_conversion_analysis.py:421-425 | both searches keep the last matching header, not the first |
| TrafficConversion.CalculatePotential | traffic_conversion_analysis.py:404-466 | the estimate of PotentialOf for the head and tail |
| TrafficConversion.AdditionalNonNegative | traffic_conversion_analysis.py:441-452 | at a target no lower than its own conversion a product adds revenue, never subtracts |
| TrafficConversion.AddedRevenueNonNegative | traffic_conversion_analysis.py:436-454 | the total of non-negative additions is a non-negative number |
| TrafficConversion.TailBelowTarget | traffic_conversion_analysis.py:109-120 | with at least 30 ranked products, every tail product converts at most at the head's average |
| TrafficConversion.PotentialNonNegative | traffic_conversion_analysis.py:404-466 | when head and tail are apart and the tail's figures are non-negative numbers, the estimate finds no negative potential or uplift |
| TrafficConversion.UpliftNonNegative | traffic_conversion_analysis.py:462-463 | a non-negative added revenue gives a non-negative uplift |
| TrafficConversion.OverlapSubtracts | traffic_conversion_analysis.py:112-120 | with two ranked products both are head and tail, and the stronger one pulls the estimate to -1800 |
| TrafficConversion.MissingSessionsOutcome | traffic_conversion_analysis.py:92-99 | without the sessions column the script as written crashes unpacking one frame into two, while the corrected one stops with the not-enough message; with the column both agree |
| TrafficConversion.NotEnoughIff | traffic_conversion_analysis.py:522-539 | with sessions and conversion columns the run stops for want of products exactly when no row has a number of sessions |
| TrafficConversion.UnitsMissingIff | traffic_conversion_analysis.py:140-146 | with sessions and conversion columns the results table raises the KeyError on the units column exactly when some row has sessions and the report lacks that column |
| TrafficConversion.RankedEmpty | traffic_conversion_analysis.py:101-114 | nothing is ranked exactly when no row has a number of sessions |
| TrafficConversion.SortedEmpty | traffic_conversion_analysis.py:101-109 | the ranking over a column's numbers is empty exactly when the column holds no number |
| TrafficConversion.ThresholdReached | traffic_conversion_analysis.py:101-103 | a column with a number has a row at or above its 70th percentile |
| TrafficConversion.AnalyzeTraffic | traffic_conversion_analysis.py:522-549 | the corrected main: it cleans the frame as CleanData does and ends in the Analysis outcome of the cleaned frame, so a report without 'Sessions – Total' stops at NotEnough; main as written raises the unpacking ValueError there (AnalysisAsWritten, MissingSessionsOutcome) |
| TrafficReport3.Converted | traffic_conversion_analysis_report3.py:41-56 | the same columns, with the named one converted cell by cell when present and every other left alone |
| TrafficReport3.WithConversion | traffic_conversion_analysis_report3.py:59-65 | adding the conversion column keeps the table rectangular |
| TrafficReport3.WithOrderValue | traffic_conversion_analysis_report3.py:68-74 | adding the order-value column keeps the table rectangular |
| TrafficReport3.MetricsMeans | traffic_conversion_analysis_report3.py:59-74 | conversion exists afterwards exactly when it did or both inputs do; each metric is the guarded ratio of its inputs; every other column stays |
| TrafficReport3.CompleteMask | traffic_conversion_analysis_report3.py:79 | a row is kept exactly when its sessions, units and conversion are all numbers |
| TrafficReport3.ReadNumbers | traffic_conversion_analysis_report3.py:40-56 | the frame's table becomes NumbersRead of it |
| TrafficReport3.AddConversion | traffic_conversion_analysis_report3.py:59-65 | the frame becomes WithConversion of its table |
| TrafficReport3.AddOrderValue | traffic_conversion_analysis_report3.py:68-74 | the frame becomes WithOrderValue of its table |
| TrafficReport3.KeptComplete | traffic_conversion_analysis_report3.py:79 | every remaining row is complete, and a table of complete rows is kept whole |
| TrafficReport3.DropIncomplete | traffic_conversion_analysis_report3.py:77-80 | a KeyError exactly when one of the three columns is absent, leaving the frame; otherwise only the complete rows remain, as many as the mask counts |
| TrafficReport3.Prepared | traffic_conversion_analysis_report3.py:36-74 | stripping the headers, reading the numbers and adding both metrics keeps the loaded table rectangular |
| TrafficReport3.CleanData | traffic_conversion_analysis_report3.py:33-87 | from the loaded frame: fails exactly when sessions, units or conversion is absent after stripping and the metric steps, leaving the prepared table; otherwise the frame is the prepared table with only its complete rows, and every row left is complete |
| TrafficReport3.Listings | traffic_conversion_analysis_report3.py:89-117 | one listing per complete row, in order |
| TrafficReport3.RankingCorrect | traffic_conversion_analysis_report3.py:93-108 | the ranking holds exactly the rows whose sessions reach the 70th percentile, as often as in the report, by falling conversion |
| TrafficReport3.TopAndBottomNonEmpty | traffic_conversion_analysis_report3.py:89-117 | head and tail are those of the ranking, and neither is empty once any row exists, so the two empty frames are never returned |
| TrafficReport3.BottomShownWorstFirst | traffic_conversion_analysis_report3.py:145-147 | the tail is shown from the lowest conversion up |
| TrafficReport3.RunningTotals | traffic_conversion_analysis_report3.py:194-214 | the three running totals of one pass over the tail |
| TrafficReport3.Uplift | traffic_conversion_analysis_report3.py:222 | 0 unless the sales are above 0; otherwise uplift × sales = revenue × 100 |
| TrafficReport3.CalculatePotential | traffic_conversion_analysis_report3.py:158-231 | the estimate of EstimateOf for the head and tail |
| TrafficReport3.UnitsTotalIsGapSum | traffic_conversion_analysis_report3.py:207-214 | the extra units add up per product as sessions times the conversion gap, in percent |
| TrafficReport3.TotalsNonNegative | traffic_conversion_analysis_report3.py:198-214 | tail rows at or below the target with non-negative sessions and order value add units and revenue, never remove them |
| TrafficReport3.SplitAt | traffic_conversion_analysis_report3.py:108-112 | a ranking of at least 30 rows splits at one conversion: the head at or above it, the tail at or below |
| TrafficReport3.MedianAtLeast | traffic_conversion_analysis_report3.py:167-186 | the median is at least any bound all values respect |
| TrafficReport3.RankedEstimateNonNegative | traffic_conversion_analysis_report3.py:158-231 | on a ranking of at least 30 rows with no negative sessions or order value, the extra units, revenue, efficiency gap and uplift are all non-negative |
| TrafficReport3.EstimateNonNegative | traffic_conversion_analysis_report3.py:89-231 | the same for a report with at least 30 high-traffic rows |
| TrafficReport3.AverageAtLeast | traffic_conversion_analysis_report3.py:166-176 | an average is at least any bound all values respect |
| TrafficReport3.AverageAtMost | traffic_conversion_analysis_report3.py:166-176 | an average is at most any bound all values respect |
| TrafficReport3.NeverNotEnough | traffic_conversion_analysis_report3.py:318-327 | once cleaning succeeds the run never stops for want of top or bottom performers |
| TrafficReport3.AnalyzeReport3 | traffic_conversion_analysis_report3.py:307-336 | from the loaded frame: the run stops on a missing column exactly when cleaning lacks one of the three columns; otherwise the frame is the prepared table with its complete rows and the outcome is Analysis of it |
| WeeklySales.ParseWith | weekly-sales-comparison.py:13-33 | a missing cell or the empty text reads as 0.0, a number as itself, a boolean as 0.0 (float() rejects its word), any other text by deleting the symbols, stripping and float() |
| WeeklySales.CurrencyDecimal | weekly-sales-comparison.py:13-22 | "£a,b.f" reads as the numeral ab.f |
| WeeklySales.CurrencyNegative | weekly-sales-comparison.py:13-22 | "£-w.f" reads as minus w.f: the minus sign survives |
| WeeklySales.NegativeNumeral | weekly-sales-comparison.py:18-20 | "-w.f" needs no stripping and float() reads it as minus w.f |
| WeeklySales.PercentageDecimal | weekly-sales-comparison.py:24-33 | "w.f%" reads as the numeral w.f |
| WeeklySales.PoundAmountExample | weekly-sales-comparison.py:13-22 | "£1,234.56" reads as 1234.56 |
| WeeklySales.NegativeAmountExample | weekly-sales-comparison.py:13-22 | "£-50.00" reads as -50.0 |
| WeeklySales.PercentageExample | weekly-sales-comparison.py:24-33 | "37.5%" reads as 37.5 |
| WeeklySales.BlankReadsZero | weekly-sales-comparison.py:15-22 | text of whitespace alone reads as 0.0, like a missing cell |
| WeeklySales.MissingPercentIsZero | weekly-sales-comparison.py:26-33 | a missing percentage and "0%" both read as 0.0 |
| WeeklySales.CurrencyOfInteger | weekly-sales-comparison.py:13-22 | every integer written with a leading '£' reads back as itself |
| WeeklySales.PercentageOfInteger | weekly-sales-comparison.py:24-33 | every integer written with a trailing '%' reads back as itself |
| WeeklySales.CurrencyCell | weekly-sales-comparison.py:47 | parse_currency always yields a number |
| WeeklySales.PercentageCell | weekly-sales-comparison.py:58 | parse_percentage always yields a number |
| WeeklySales.NumericCell | weekly-sales-comparison.py:69 | to_numeric with fillna(0) always yields a number and keeps one |
| WeeklySales.CleanedColumns | weekly-sales-comparison.py:43-69 | one column per column after the three passes |
| WeeklySales.CleanedColumnsNumeric | weekly-sales-comparison.py:43-69 | after cleaning, every cell of a converted column is a number |
| WeeklySales.LoadAndCleanData | weekly-sales-comparison.py:35-71 | the labels are stripped and the columns become CleanedColumns on them |
| WeeklySales.FirstIndexOf | weekly-sales-comparison.py:94-106 | the first row with the ASIN, or the end when there is none |
| WeeklySales.FirstRow | weekly-sales-comparison.py:94-108 | no row for the week exactly when the ASIN is absent from it |
| WeeklySales.Dedup | weekly-sales-comparison.py:88 | the same keys, each once |
| WeeklySales.AllAsins | weekly-sales-comparison.py:88 | each ASIN of either week, once |
| WeeklySales.ChangeThresholds | weekly-sales-comparison.py:128-167 | from a positive base, the four status thresholds are the ratios 1.5, 1.2, 0.5 and 0.8 of the earlier week |
| WeeklySales.ChangeCompare | weekly-sales-comparison.py:128 | the relative change exceeds t × 100 exactly when the later week exceeds (1 + t) times the earlier |
| WeeklySales.StatusByRatio | weekly-sales-comparison.py:156-169 | with both weeks positive, each status is exactly one ratio band |
| WeeklySales.StrictThresholds | weekly-sales-comparison.py:160-169 | the thresholds are strict: exactly +50% is INCREASE, +20% is STABLE and -50% is DECREASE |
| WeeklySales.NewAndDiscontinued | weekly-sales-comparison.py:156-159 | a product that starts selling is NEW_PRODUCT, one that stops is DISCONTINUED |
| WeeklySales.Compare | weekly-sales-comparison.py:90-171 | one ASIN's row: each change is week 29 minus week 28, the percentages are ChangePercent, the status follows the sales; title and SKU come from the ASIN's first week-29 row if there is one, else its first week-28 row, else 'Unknown' |
| WeeklySales.AbsentWeekIsZero | weekly-sales-comparison.py:122-157 | an ASIN missing from a week has zero figures there; it is NEW_PRODUCT when it sells only in week 29 and DISCONTINUED when it sold only in week 28 |
| WeeklySales.FirstRowWins | weekly-sales-comparison.py:102-113 | when an ASIN repeats within week 29, its figures, title and SKU come from its first row |
| WeeklySales.FirstRowWinsEarlierWeek | weekly-sales-comparison.py:94-101 | when an ASIN repeats within week 28, its week-28 figures come from its first row |
| WeeklySales.CompareWeeks | weekly-sales-comparison.py:77-173 | one comparison per distinct ASIN of either week |
| WeeklySales.CompareAsin | weekly-sales-comparison.py:91-171 | the loop body fills the row Compare gives |
| WeeklySales.Classify | weekly-sales-comparison.py:156-169 | the if/elif chain gives StatusOf |
| WeeklySales.OneRowPerAsin | weekly-sales-comparison.py:88-173 | the results name every ASIN of both weeks exactly once |
| WeeklySales.DetailedReportOrder | weekly-sales-comparison.py:230-233 | the saved report is a permutation of the rows by falling absolute sales change |
| WeeklySales.TotalChangePercent | weekly-sales-comparison.py:183-186 | 0 unless week 28 sold; otherwise positive exactly when week 29 sold more |
| Common.SumAppend | weekly-sales-comparison.py:183-184 | the total of two runs of rows is the sum of their totals |
| Common.SumPointwise | analyze_shipment_efficiency_scenario2.py:40-45 | a column that is the row-wise sum of two columns totals to the sum of their totals |
| Common.SumBounds | weekly-sales-comparison.py:183-184 | a total of n values each within [lo, hi] lies within [n × lo, n × hi] |
| Common.Mean | analyze_shipment_efficiency.py:103 | Series.mean() is NaN exactly when no value is present |
| Common.MeanBetween | analyze_shipment_efficiency.py:103 | a mean lies within any bounds that every present value respects |
| Common.AverageBetween | analyze_shipment_efficiency.py:103 | the average of a non-empty list lies within bounds its elements respect |
| Common.Filter | opportunity_finder.py:21-25 | df[mask] keeps an element exactly when it passes the mask, never more elements than it had |
| Common.FilterAppend | opportunity_finder.py:21-25 | masking two runs of rows and joining the results is masking the joined rows |
| Common.CountPartition | analyze_shipment_efficiency.py:105-107 | when each row passes exactly one of three tests, the three counts add up to the number of rows |
| Common.Head | opportunity_finder.py:28 | head(n) is the first min(n, length) rows |
| Common.Tail | traffic_conversion_analysis_report3.py:112 | tail(n) is the last min(n, length) rows |
| Common.HeadTailApart | traffic_conversion_analysis_report3.py:111-112 | with at least 2n rows the top n and the bottom n are disjoint and nothing else is dropped |
| Common.HeadTailShare | traffic_conversion_analysis_report3.py:111-112 | with fewer than 2n rows the last top performer is also a bottom performer |
| Common.FirstWhere | traffic_conversion_analysis.py:77-81 | the column a for/break search settles on is the first that passes, and none is found exactly when none passes |
| Common.LastWhere | traffic_conversion_analysis.py:421-425 | a loop that keeps overwriting its match settles on the last column that passes, and none exactly when none passes |
| Common.AboveTotal | opportunity_finder.py:25 | the descending sort order compares any two keys one way or the other, never both |
| Common.InsertSorted | opportunity_finder.py:25 | inserting a row into a descending run keeps it descending and adds just that row |
| Common.SortDescCorrect | opportunity_finder.py:25 | sort_values(ascending=False) returns a descending permutation of its rows |
| Common.SortDescStable | opportunity_finder.py:25 | rows with equal keys keep their input order |
| Common.TopByCorrect | enhanced_traffic_conversion_analysis.py:139 | nlargest(n) keeps min(n, length) rows in descending order and no row left out is above a row kept |
| Common.Ascending | enhanced_traffic_conversion_analysis.py:43-44 | the values from smallest to largest: sorted and a permutation |
| Common.Position | enhanced_traffic_conversion_analysis.py:43-44 | the lower interpolation neighbour is the whole part of (n - 1) × q |
| Common.Quantile | enhanced_traffic_conversion_analysis.py:43-44 | Series.quantile(q) is NaN exactly when the series has no value |
| Common.QuantileNeighbours | enhanced_traffic_conversion_analysis.py:43-44 | a quantile lies between two of the sorted values |
| Common.QuantileWithin | enhanced_traffic_conversion_analysis.py:43-44 | a quantile is never below the smallest value nor above the largest |
| Common.QuantileReached | opportunity_finder.py:105 | at least one value is at or above any quantile of it |
| Common.Median | enhanced_traffic_conversion_analysis.py:234 | Series.median() is NaN exactly when the series has no value |
| Common.MedianOfOdd | enhanced_traffic_conversion_analysis.py:234 | with an odd count the median is the middle value |
| Common.MedianOfEven | enhanced_traffic_conversion_analysis.py:234 | with an even count the median is the mean of the two middle values |
| Common.UnscaleScale | analyze_shipment_efficiency.py:71-73 | shifting n decimals up and back down returns the value |
| Common.RoundHalfEven | analyze_shipment_efficiency.py:71-73 | round() is within a half of its argument, sends exact halves to the even neighbour and keeps integers |
| Common.Rounded | opportunity_finder.py:128 | .round(2) keeps NaN as NaN and a number as a number |
| Common.RoundToClose | analyze_shipment_efficiency.py:71-73 | round(x, n) is within half a unit of the n-th decimal of x |
| Common.RoundToInteger | analyze_shipment_efficiency.py:71-73 | round(i, n) of an integer is the integer |
| Common.Truncate | analyze_shipment_efficiency.py:69 | int() on a float truncates toward zero |
| Text.SkipIn | weekly-sales-comparison.py:41 | the first position from i on that is not padding, with padding everywhere before it |
| Text.BackIn | weekly-sales-comparison.py:41 | the start of the padding run that ends the text |
| Text.Trim | analyze_expanded.py:33 | strip(cs) leaves no padding from cs at either end |
| Text.TrimOf | analyze_expanded.py:33 | stripping padding from around an unpadded core gives the core back |
| Text.TrimSplit | analyze_expanded.py:33 | every text is its stripped core with padding on both sides |
| Text.Strip | weekly-sales-comparison.py:41 | strip() leaves none of the characters str.isspace() accepts at either end |
| Text.StripOf | weekly-sales-comparison.py:41 | strip() of whitespace, a core and whitespace is the core |
| Text.StripSplit | weekly-sales-comparison.py:41 | every text is its stripped core between two runs of whitespace |
| Text.StripEmptyIffAllSpace | weekly-sales-comparison.py:15-17 | strip() gives the empty text exactly when the text is all whitespace |
| Text.StripUnpadded | weekly-sales-comparison.py:41 | text without padding is left as it is |
| Text.StripIdempotent | weekly-sales-comparison.py:41 | stripping twice is stripping once |
| Text.StripPadded | weekly-sales-comparison.py:41 | extra whitespace around a text does not change what strip() keeps |
| Text.Lower | analyze_business_report_updated.py:21 | lower() keeps the length and lowers each character in place |
| Text.LowerDigit | analyze_business_report_updated.py:21 | lower() turns a character into a digit exactly when it was one |
| Text.ContainsChar | analyze_business_report_updated.py:24 | the substring test for one character is membership |
| Text.ContainsExtend | analyze_business_report_updated.py:24 | text around a match keeps the match |
| Text.RemoveChars | weekly-sales-comparison.py:18-19 | chained replace(c, '') leaves none of the dropped characters and adds no character |
| Text.RemoveCharsUntouched | weekly-sales-comparison.py:18-19 | text without the dropped characters is unchanged |
| Text.RemoveCharsAppend | weekly-sales-comparison.py:18-19 | deleting characters from joined texts is deleting them from each part |
| Text.ReplaceChar | analyze_business_report_updated.py:21 | replace(a, b) keeps the length and swaps each a for b |
| Text.TrailingDigits | check_balance.py:18-19 | the run of digits that ends a text, stopped by a non-digit |
| Text.LeadingUpper | analyze_new_report.py:120 | the capital run that ^([A-Z]+) matches at the start of a text |
| Text.LeadingWord | check_balance.py:18-19 | the \w+ run at the start of a text, stopped by a non-word character |
| Text.FindChar | check_balance.py:18-19 | the first position of a character from a start on, or -1 when there is none |
| Text.Split | check_balance.py:14 | split('\n') never gives an empty list, no piece holds the separator, and joining the pieces restores the text |
| NumParse.DigitChar | scripts/csv_to_json.py:49-53 | the digit character for each digit value |
| NumParse.ParseUnsigned | scripts/csv_to_json.py:49-53 | an unsigned literal reads exactly when it is one or more digits |
| NumParse.NatToString | scripts/csv_to_json.py:49-53 | str() of a natural is a non-empty run of digits |
| NumParse.NatToStringValue | scripts/csv_to_json.py:49-53 | the digits str() prints denote the number |
| NumParse.ParseIntRoundTrip | scripts/csv_to_json.py:49-53 | int(str(i)) == i for every integer |
| NumParse.ParseDigits | scripts/csv_to_json.py:49-53 | a run of digits reads as its value |
| NumParse.ParseNegative | scripts/csv_to_json.py:49-53 | a minus sign and digits read as minus their value |
| NumParse.ParseFloatOfInteger | scripts/csv_to_json.py:49-53 | float() agrees with int() on integer literals |
| NumParse.SignedIntAsDecimal | scripts/csv_to_json.py:49-53 | a signed integer literal is also a decimal literal of the same value |
| NumParse.UnsignedAsDecimal | scripts/csv_to_json.py:49-53 | a run of digits is a decimal literal of its value |
| NumParse.ParseFloatDecimal | scripts/csv_to_json.py:49-51 | a literal with a decimal point has the value its whole and fractional digits denote |
| NumParse.NumeralUnpadded | scripts/csv_to_json.py:49-51 | a numeral of digits and points needs no stripping and carries no sign |
| NumParse.SplitAtPoint | scripts/csv_to_json.py:49-51 | an unsigned decimal reads as its whole part plus its fraction |
| NumParse.ParseIgnoresPadding | scripts/csv_to_json.py:49-53 | whitespace around a literal never changes what int() or float() read |
| Cells.AsNumber | analyze_business_report_updated.py:27 | a cell has a numeric reading exactly when it holds a number |
| Cells.FromNumber | analyze_business_report_updated.py:27 | a number or NaN put into a cell reads back as itself |
| Cells.Coerce | analyze_business_report_updated.py:27 | to_numeric(errors='coerce') keeps numbers, reads text with float() and otherwise gives NaN |
| Cells.CleanText | analyze_business_report_updated.py:26-27 | deleting the symbols and coercing keeps numbers, reads text without the symbols, and turns NaN and booleans into NaN |
| Cells.CleanTextIdempotent | analyze_business_report_updated.py:26-27 | cleaning a cleaned column changes nothing |
| Cells.CleanTextSuffix | analyze_business_report_updated.py:26-27 | "12%" cleaned of '%' is 12, for every integer |
| Cells.CleanTextPrefix | analyze_business_report_updated.py:33-34 | "£12" cleaned of '£' is 12, for every integer |
| Cells.GuardedRatio | analyze_business_report_updated.py:38-44 | np.where(den > 0, num / den × scale, 0) is 0 unless the denominator is positive and then the ratio, NaN with a NaN numerator |
| Cells.GuardedRatioNonNegative | analyze_business_report_updated.py:38-44 | a non-negative numerator gives a non-negative rate |
| Cells.Divide | enhanced_traffic_conversion_analysis.py:29-30 | float division is finite exactly when both are numbers and the divisor is not zero, and then times the divisor gives the dividend |
| Frames.FirstIndex | weekly-sales-comparison.py:47 | df[l] addresses the first column labelled l |
| Frames.FirstIndexPrefix | weekly-sales-comparison.py:47 | a column appended later does not move the first column labelled l |
| Frames.MapCells | weekly-sales-comparison.py:47 | Series.apply(f) converts every cell and keeps the order |
| Frames.Numbers | weekly-sales-comparison.py:183-184 | the numeric reading of each cell of a column |
| Frames.ZipCells | enhanced_traffic_conversion_analysis.py:29 | an element-wise combination of two columns pairs cell i with cell i |
| Frames.Keep | opportunity_finder.py:21-25 | df[mask] keeps as many rows as the mask has true entries |
| Frames.KeepWhere | opportunity_finder.py:21-25 | every kept row passed the mask's test |
| Frames.KeepEverything | opportunity_finder.py:21-25 | a mask that is all true keeps the column whole |
| Frames.Replaced | weekly-sales-comparison.py:47 | assigning a column keeps the number of columns |
| Frames.Applied | weekly-sales-comparison.py:43-69 | a pass over listed column names keeps the number of columns |
| Frames.Transformed | analyze_business_report_updated.py:24-27 | rewriting the columns whose label passes a test keeps every label and rewrites exactly those columns |
| Frames.TransformedStep | analyze_business_report_updated.py:25-27 | visiting one more label rewrites its column when it passes, and a second visit changes nothing more |
| Frames.PartlyTransformedNone | analyze_business_report_updated.py:25-27 | before the loop the table is as it was |
| Frames.TransformedAll | analyze_business_report_updated.py:25-27 | once every label is visited the loop has done the whole rewrite |
| Frames.TransformedRectangular | analyze_business_report_updated.py:25-27 | a rewrite keeps every column's height |
| Frames.KeptTable | traffic_conversion_analysis_report3.py:79 | df[mask] keeps every label and keeps the masked positions of each column |
| Frames.Frame.constructor | weekly-sales-comparison.py:38 | a frame read from a file has one column per label, all of one height |
| Frames.Frame.Column | weekly-sales-comparison.py:47 | df[l] is as high as the frame |
| Frames.Frame.Table | weekly-sales-comparison.py:47 | the frame as a map from each label to its first column |
| Frames.Frame.TableFits | weekly-sales-comparison.py:47 | every label names a column of the table and every column has the frame's height |
| Frames.Frame.Row | weekly-sales-comparison.py:94-108 | df.iloc[i] maps each label to that column's i-th cell |
| Frames.Frame.Rows | weekly-sales-comparison.py:94-108 | iterrows() yields one row per row index, in order |
| Frames.Frame.Assign | weekly-sales-comparison.py:47 | df[l] = values replaces every column labelled l or appends a new one, and leaves every other column as it was |
| Frames.Frame.SameTable | weekly-sales-comparison.py:47 | a table that agrees on every other column and holds the values at l is the new frame's table |
| Frames.Frame.Relabel | weekly-sales-comparison.py:41 | df.columns = f(df.columns) renames each label in place and leaves the cells |
| Frames.Frame.KeepRows | traffic_conversion_analysis_report3.py:79 | df = df.dropna(...), a mask, keeps the masked rows in order in every column |
| Frames.Frame.ApplyToColumns | weekly-sales-comparison.py:43-69 | the loop over listed names rewrites each present column once in place |
| Frames.Frame.TransformStep | analyze_business_report_updated.py:25-27 | one pass of the loop takes the table one label further |
| Frames.TransformWhere | analyze_business_report_updated.py:24-27 | the loop over df.columns leaves the table Transformed |
| ReportRows.ColumnOf | advanced_analysis_new.py:188 | one reading of the column per row |
| ReportRows.Percentile | opportunity_finder.py:52-53 | df[c].quantile(q) skips NaN and is NaN exactly when the column has no number |
| ReportRows.Average | advanced_analysis_new.py:188 | df[c].mean() skips NaN and is NaN exactly when the column has no number |
| ReportRows.AverageFloor | advanced_analysis_new.py:188 | a column mean respects a floor every number of the column respects |
| ReportRows.TotalAbove | advanced_analysis_new.py:300 | a sum of numbers each above a floor is at least the floor per number, and more for a positive floor |
| ReportRows.CategoryNames | advanced_analysis_new.py:314 | the groupby keys are the present categories, each once |
| ReportRows.NoCategoryNames | advanced_analysis_new.py:314 | there is no group exactly when every category is NaN |
| ReportRows.InCategory | advanced_analysis_new.py:314 | a group holds exactly the rows of its category |
| ReportRows.WithValue | advanced_analysis_new.py:197 | the rows whose column holds a number |
| ReportRows.WithValueAll | advanced_analysis_new.py:197 | when every row has a value none is dropped |
| ReportRows.NLargestCorrect | advanced_analysis_new.py:197 | nlargest(n) picks min(n, valued rows) rows in descending order, and no row left out is larger than one picked |
| ReportRows.SortedByCorrect | opportunity_finder.py:25 | sort_values keeps every row, puts larger values first and NaN last |

## Findings

| source | as written | input that shows it | evidently intended | confidence | as-written member | corrected member |
|---|---|---|---|---|---|---|
| analyze_shipment_efficiency.py:105-107 | the summary counts compare the efficiency rounded to two decimals with the target, while each day's status compares the unrounded one | a day with 18 shipments in 1 hour whose efficiency cell reads 18.001: its status is Above Target, but 18.001 rounds to 18.0, so it is counted as on target | the counts agree with the statuses | not executed | ShipmentEfficiency.RoundedCountsDisagree | ShipmentEfficiency.Summarize |
| analyze_shipment_efficiency_scenario2.py:130-132 | the same rounded comparison in the packing-plus-picking summary | a day whose efficiency is 17.999: its status is Below Target, but it is counted as on target | the counts agree with the statuses | not executed | ShipmentScenario2.MixRoundedCountsDisagree | ShipmentScenario2.MixSummarize |
| traffic_conversion_analysis.py:99 | without a 'Sessions – Total' column the selection returns one empty frame, but main (line 534) unpacks the result into two frames, which raises | a report whose columns do not include 'Sessions – Total' | the run stops with the "not enough data" outcome, as the other early returns do | not executed | TrafficConversion.MissingSessionsOutcome | TrafficConversion.Analysis |

## Left out

- Printing, Markdown, CSV and JSON writing, chart drawing, `datetime` stamps and every other piece of file and console I/O.
- The command-line runners run_analysis.py, run_analysis_updated.py and business_report_suite.py. They only show menus, read `input()` and start subprocesses.
- backfill_competitive_titles.py is not part of this model. It is a network client for a hosted database.
- Floating point: numbers are exact reals, so IEEE rounding, infinities and representation error are not modelled. One exception: x/0 is reported as infinite, and 0/0 as NaN. The infinity carries no sign: numpy gives -inf for a negative numerator over 0, and Quotient.Infinite does not tell the two apart.
- round(x, n) is exact half-to-even rounding on reals, so the binary representation Python rounds is left out.
- Python's int() and float() read a decimal subset: an optional sign, digits and at most one point. Underscores, exponents, 'inf' and 'nan' are refused.
- Regular expressions: the tag and block patterns of check_balance.py and the SKU patterns are hand scanners for the shapes the scripts use. Text.IsWord is the ASCII part of \w: Python's \w also matches non-ASCII letters and digits, which Text.LeadingWord and CheckBalance.WordEnd, HtmlAt and BlockAt therefore do not match.
- Upper- and lower-case conversion covers ASCII letters only.
- pandas quantiles are linear interpolation over the sorted values.
- qcut quartile labels are inputs (AdvancedBusiness tiers), because qcut raises on duplicate edges.
- AdvancedAnalysis.QuadrantColours takes its two cut points as parameters.
- sort_values and nlargest are modelled by a stable sort. pandas' default quicksort may order equal keys differently, so the model fixes one of the orders pandas may produce.
- groupby lists its keys in order of first appearance, whereas pandas sorts them. Only the set of groups and their contents are claimed.
- The order in which compare_weeks visits the ASIN set is not modelled. The model visits week 28's ASINs in order, then the new ones of week 29, and claims one result per ASIN.
- Duplicate column labels: pandas raises or returns a frame where the model assigns every column with that label and reads the first.
- read_csv type inference: a cell is given as a number, text, a boolean or missing.
- `.str` on a column that is not text is an AttributeError, which the model approximates by making the non-text cells NaN.
- traffic_conversion_analysis.py defines calculate_optimization_potential and export_results twice. Python keeps the later definitions (lines 404 and 468), so the earlier ones at lines 166 and 235 are not modelled.
- enhanced_traffic_conversion_analysis.py: the dashboard's revenue_per_session column and the category summary table (lines 138-166) only feed charts and printed tables.
- traffic_conversion_analysis_report3.py: the printed minimum and maximum figures are left out.
- advanced_analysis_new.py: the category statistics table (lines 313-323) and the dashboard plots are left out.
- opportunity_finder.py: export_opportunities_report is left out. It writes Markdown from the same filters the model covers.
- opportunity_finder.py: the per-row figures the pricing search prints are left out.
- simple_performance_export.py rereads the file with the cleaning of enhanced_traffic_conversion_analysis.py (lines 11-30). The model reuses EnhancedTraffic.LoadAndClean for it.
- advanced_business_analysis.py: the dashboard charts and export_summary_report are left out.
- advanced_business_analysis.py: revenue_efficiency and bb_category are computed as sequences beside the frame rather than written into it.
- advanced_business_analysis.py: the categorical groupby (observed=False) is modelled as listing all four buy-box bands.
- advanced_business_analysis.py: the insight texts become an Insight datatype. The star and under-performer lists passed to generate_actionable_insights are unused there and so are not modelled.
- weekly-sales-comparison.py: the printed top and bottom performers and buy-box averages (lines 199-260, apart from the saved report order) are left out.
- BusinessReport and NewReport take the percentile thresholds of their opportunity filters as parameters.
- Text.Strip: the whitespace set is that of str.isspace(). Python's str.strip() and pandas' .str.strip() use the same set, and the model claims nothing beyond it.
- NewReport.CalculateMetrics: when it raises, the model leaves the frame as it was. Python may already have added conversion_rate or other columns. main catches the error and drops the frame, so nothing reads those columns.
- BusinessReportUpdated.SummaryOf: a units column that still holds text, because neither metric ran, is summed over its numbers only. pandas would concatenate the text or raise.
- ShipmentEfficiency.Summarize: with no result rows at all, results_df has no Status column and line 92 raises KeyError. The model returns None, the same as a run with no working day.
- ShipmentScenario2.MixSummarize: the same KeyError at line 113 for an empty results list is also modelled as None.
- CsvToJson.CleanRecord: a record's keys are always text. A row with more fields than the header gets the key None from DictReader, and key.strip() then raises AttributeError (exit code 1). That case is not modelled.
- BestSellers.ReadRow: a row is a map from header to text. A row shorter than the header gets the value None from DictReader, and .strip() on it raises AttributeError. The model's missing key reads as ''.
- BusinessReport.Issues: the missing-value count counts column labels, so a label given twice is counted once (duplicate labels are covered above).
- EnhancedTraffic.LoadAndClean: a RawRow always holds the 'Sessions – Total', 'Units ordered' and 'Ordered Product Sales' cells. A report without one of those columns raises KeyError at enhanced_traffic_conversion_analysis.py:24-26, and that case is not modelled.
