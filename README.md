# aMOR core, modelled in Dafny

A model of the sequential logic inside aMOR (the multi-ontology reference
library built on the OWL API) and of the benchmark tooling around it. OWL
objects (classes, properties, individuals, literals, axioms) are opaque values;
an ontology is a set of axioms.

| file | module | models |
|---|---|---|
| common.dfy | `Wrappers`, `Text` | `Option`/`Result`; Java and Python string operations (`contains`, `indexOf`, `lastIndexOf`, `replace`, `split`, `join`, decimal text) |
| owl.dfy | `JavaHash`, `Owl` | Java `int` wrap-around and the `hashCode` conventions; entities, literals, axioms, changes and their application |
| queries_chart.dfy | `QueriesChart` | `queriesChart.py`: collecting result files from a walk, pairing them by adjacency, locating their files, reading the `average[ns]` column, naming the charts |
| std_queries_chart.dfy | `StdQueriesChart` | `stdQueriesChart.py`: the same collection and pairing, the 14 × 10 per-trial samples, the 14 single-query charts and the total chart |
| lubm_test.dfy | `LubmTest` | `LUBMTest.java`: the CSV headers, the aMOR and OWL API result lines (ten trials, truncated average), `writeCSVLine`, the two file managers |
| amor_test.dfy | `AmorTest` | `aMORTest.java`: `uni<u>-dep<d>` names, the digit-run id parser and its round trip, the result path |
| restriction_fragments.dfy, semantic_restriction.dfy | `RestrictionFragments`, `SemanticRestriction` | `RestrictionType` strings and their `contains` predicates; the `Applying*` restriction objects, their equality and hashes; `getDataType` |
| class_restriction.dfy | `ClassRestrictions` | `ClassRestriction`: guarded setters, conditional getters, type names, equality and hash |
| owl_manipulator.dfy | `OwlManipulator` | `OWLManipulator`: the change buffer, queue-or-apply, `applyChanges`, representative add/remove/replace/convert methods |
| owl_references.dfy | `OwlReferences` | `getOWLName` (object and set), `getOnlyElement`, the `OWLReferencesContainer` registry and the construction guard |
| data_property_relations.dfy, object_property_relations.dfy | `DataPropertyRelations`, `ObjectPropertyRelations` | the relation records: constructors, setters, `equals`, `hashCode` |
| logger.dfy | `Logging` | `Logger`: per-logger buffers, the shared counter that drains every `orderPrintingRate` logs, `getLogInfo`, `flush`, `getNamedInstance`, the logging flags |
| file_manager.dfy | `FileManagement` | `FileManager`: path rules of `initialize`, `getFormatFromAbsolutePath`, the text/log/java formats, the blank guard of `printOnFile` |
| following_manager.dfy | `Following` | `FollowingManager`: the frame registry, the parallel text/colour lists, following and unfollowing, `isFollowed`, `allColorToFollow` |

Code that changes state is modelled as classes and methods (the change buffer,
the reference registry, loggers, following managers, restriction objects, the
CSV writer), and each loop of the source is a `while` loop with its invariants,
proved against a function that states the outcome (for instance
`QueriesChart.DrawCharts` against `QueriesChart.Charts`, `StdQueriesChart.FillSamples`
against `StdQueriesChart.Samples`, `Logging.LogSystem.GetLogInfo` against the
sorted drain). The properties are then proved about those functions.

## Behaviour as written

Where the documented design of the benchmark pipeline (grouping by run id,
row-count checks, errors isolated to one pair) differs from the code, the model
follows the code:

- Result files are paired by position (`list[i]`, `list[i+1]`, cursor stepping by two), not grouped by run id; run ids are never compared, and a trailing file is dropped (`QueriesChart.TrailingIgnored`).
- A name holding both tags is collected twice, not rejected (`QueriesChart.CollectedCount`).
- Prefixes and `.csv` are removed by chained literal `replace` of every occurrence, not by stripping a prefix and a suffix.
- The number of rows is not checked: a file with fewer than 14 rows gives shorter series (or empty lists in the per-trial script), and a file with more than 14 rows stops the per-trial script with an `IndexError` (`StdQueriesChart.TooManyRowsStop`).
- Cells stay strings; nothing is parsed as a number.
- Any error (`KeyError`, `IndexError`, `NameError`) stops the whole script, not just the pair (`crashed` in the outcomes).
- A first name without a tag reuses the previous pair's roles and its exhausted files, so it draws empty series (`QueriesChart.StaleRolesDrawEmpty`, `StdQueriesChart.StaleTurnDrawsEmpty`); the per-trial script tests `OWLAPI-` for the charts directory but `OWLAPI` for the roles (`StdQueriesChart.DashlessTagStops`).
- The extended aMOR CSV line writes the department id before the university id, unlike the plain line and the OWL API lines (`LubmTest.AmorLineIdOrder`).
- The name-based relation constructors look the property up from their `ind` argument and the individual from their `prop` argument.
- `addFollowText` over two lists returns the list length whenever the lengths agree, whatever each element's outcome; `allColorToFollow` maps every followed text to its manager's first colour, because its index is never advanced.
- `ClassRestrictedOnExactData` is documented as a maximum restriction but sets the exact type (`SemanticRestriction.ExactDataClassIsExact`).

## Model

| member | source | states |
|---|---|---|
| Text.LastIndexOf | amor/src/main/java/it/emarolab/amor/owlInterface/OWLReferencesInterface.java:133-134 | `String.lastIndexOf`: -1 or an index holding the character, with no occurrence after it |
| Text.IndexOf | amor/src/main/java/it/emarolab/amor/owlInterface/OWLReferencesInterface.java:150-155 | `String.indexOf`: -1 or an index holding the character, with no occurrence before it |
| Text.SplitOnJoin | amor/src/main/java/aMORanalysis/aMORTest.java:264 | splitting at a separator undoes joining pieces that do not hold it |
| Text.NatToString | amor/files/stdQueriesChart.py:76 | the decimal text of a number is non-empty and made of digits |
| QueriesChart.QueryLabels | amor/files/queriesChart.py:15 | the x labels are the query numbers 1 to 14, in order |
| QueriesChart.Tagged | amor/files/queriesChart.py:31-35 | one walked name is appended once per tag its resolved path holds, and nothing else is appended |
| QueriesChart.CollectElements | amor/files/queriesChart.py:30-35 | the collecting loop builds exactly the collected list of the walked names, in walk order |
| QueriesChart.CollectedCount | amor/files/queriesChart.py:30-35 | a name is collected as many times as it is walked times the number of tags its path holds (a path holding both tags counts twice) |
| QueriesChart.CollectedMember | amor/files/queriesChart.py:30-35 | a name is in the list exactly when it was walked and its resolved path holds a tag |
| QueriesChart.StripName | amor/files/queriesChart.py:52-53 | removing the prefix and `.csv` from `prefix + run + ".csv"` leaves the run name |
| QueriesChart.StripAround | amor/files/queriesChart.py:52-57 | removing a prefix and an extension around a run name leaves the run name |
| QueriesChart.TagFacts | amor/files/queriesChart.py:50-57 | an `OWLAPI-` file holds the `OWLAPI` tag; an `aMOR-` file holds `aMOR-` and not `OWLAPI` |
| QueriesChart.AmorFirstRoles | amor/files/queriesChart.py:50-53 | an aMOR file first is the aMOR file of the pair, read from its run's directory; the next name is read as the OWL API file |
| QueriesChart.OwlApiFirstRoles | amor/files/queriesChart.py:54-57 | an OWL API file first is read from its run's directory, and the next name is taken as the aMOR file |
| QueriesChart.ChartsDirOfRun | amor/files/queriesChart.py:45 | both prefixes of a run lead to the charts directory of that run |
| QueriesChart.StripThree | amor/files/queriesChart.py:45 | removing two prefixes and the extension from the first prefix's file name leaves the run name |
| QueriesChart.StripThreeSecond | amor/files/queriesChart.py:45 | removing two prefixes and the extension from the second prefix's file name leaves the run name |
| QueriesChart.ShortNameOfRun | amor/files/queriesChart.py:94-95 | the chart of run `uni<u>-dep<d>` is saved under the name `<u>-<d>` |
| QueriesChart.ShortOfParts | amor/files/queriesChart.py:94-95 | the four removals of the chart name take away prefix, extension, `uni` and `dep` and nothing else |
| QueriesChart.Column | amor/files/queriesChart.py:63-67 | a column exists exactly when every row has the key, and then holds each row's cell in row order (a missing key is the `KeyError`) |
| QueriesChart.RolesStay | amor/files/queriesChart.py:50-57 | a tagged first name always sets the roles; an untagged one keeps the previous roles |
| QueriesChart.DrawPairMeans | amor/files/queriesChart.py:45-95 | a pair draws a chart exactly when it has roles and both files have the time column; the chart carries the aMOR name and each file's time cells |
| QueriesChart.ChartsFrom | amor/files/queriesChart.py:39-99 | the script draws one chart per complete pair, fewer when it stops on a pair |
| QueriesChart.ReadColumn | amor/files/queriesChart.py:63-67 | the reading loop returns the column of the key over the rows, or the `KeyError` |
| QueriesChart.ColumnStops | amor/files/queriesChart.py:63-67 | once a row lacks the column, every longer prefix of the file lacks it too |
| QueriesChart.DrawOne | amor/files/queriesChart.py:42-95 | the loop body draws exactly what one turn of the script draws |
| QueriesChart.DrawCharts | amor/files/queriesChart.py:37-99 | the pairing loop's charts and stop are the outcome of the whole script |
| QueriesChart.DrawnStart | amor/files/queriesChart.py:37-39 | before the loop nothing is drawn and every pair is still ahead |
| QueriesChart.DrawnEnd | amor/files/queriesChart.py:39 | once no partner follows the cursor, the charts drawn are the whole outcome |
| QueriesChart.DrawStep | amor/files/queriesChart.py:39-99 | one turn adds the chart of its pair, or stops the script, keeping the outcome invariant |
| QueriesChart.SeriesAreColumns | amor/files/queriesChart.py:59-71 | each bar series holds the time cell of every row its reader yields, in row order, against the 14 query labels |
| QueriesChart.StaleRolesDrawEmpty | amor/files/queriesChart.py:50-67 | a pair whose first name has no tag draws, under the previous aMOR name, a chart with both series empty |
| QueriesChart.TrailingIgnored | amor/files/queriesChart.py:39 | a last element without a partner is never read |
| QueriesChart.MatchedPair | amor/files/queriesChart.py:50-57 | a pair of the same run in either order reads the aMOR and OWL API files from the run's directory, the aMOR file named as such |
| QueriesChart.MatchedChartPath | amor/files/queriesChart.py:45-95 | the chart of a matched pair is saved in the run's charts directory as `average-time-Chart-<u>-<d>.html` |
| QueriesChart.ChartPathOf | amor/files/queriesChart.py:94-95 | a chart with a known short name is saved at `<dir>/average-time-Chart-<short>.html` |
| StdQueriesChart.TimeKeysAreWritten | amor/files/stdQueriesChart.py:74-82 | the ten columns read are the ten execution-time columns the extended benchmark CSV writes, in order |
| StdQueriesChart.TrialsUpTo | amor/files/stdQueriesChart.py:75-76 | a row yields its ten time cells in column order exactly when it has every time column; otherwise the `KeyError` |
| StdQueriesChart.ReadTrials | amor/files/stdQueriesChart.py:75-76 | the inner loop over `k` reads exactly the row's time cells, or stops on the `KeyError` |
| StdQueriesChart.Samples | amor/files/stdQueriesChart.py:35-43 | a file that reads without error gives one sample list per query, 14 in all |
| StdQueriesChart.FillSamples | amor/files/stdQueriesChart.py:71-82 | the reading loop fills the 14 lists in place with exactly the samples of the file, or stops on an error |
| StdQueriesChart.FillStep | amor/files/stdQueriesChart.py:74-77 | appending the next row's times to its own empty list fills one more row |
| StdQueriesChart.SamplesOfLists | amor/files/stdQueriesChart.py:71-82 | lists filled row by row, each row's times in its own list, are the samples of the file |
| StdQueriesChart.SamplesMeans | amor/files/stdQueriesChart.py:71-82 | a file yields samples exactly when it has at most 14 rows each holding all ten time columns; list `q` then holds row `q`'s ten cells in column order, and a query without a row keeps its empty list |
| StdQueriesChart.SinglesInTotal | amor/files/stdQueriesChart.py:373-385 | the 14 single-query charts cut the total chart into consecutive pairs of boxes, aMOR first, labelled with the query number |
| StdQueriesChart.StdPairMeans | amor/files/stdQueriesChart.py:46-82 | a turn draws exactly when the pair has a charts directory and roles and both files yield samples; it then draws 15 charts |
| StdQueriesChart.StdChartsFrom | amor/files/stdQueriesChart.py:32-510 | the script draws 15 charts per complete pair, fewer when it stops on a pair |
| StdQueriesChart.DrawTurn | amor/files/stdQueriesChart.py:35-506 | the loop body draws exactly what one turn of the script draws |
| StdQueriesChart.DrawStdCharts | amor/files/stdQueriesChart.py:30-510 | the pairing loop's charts and stop are the outcome of the whole script |
| StdQueriesChart.DrawnStart | amor/files/stdQueriesChart.py:30-32 | before the loop nothing is drawn and every pair is still ahead |
| StdQueriesChart.DrawnEnd | amor/files/stdQueriesChart.py:32 | once no partner follows the cursor, the charts drawn are the whole outcome |
| StdQueriesChart.StdStep | amor/files/stdQueriesChart.py:32-510 | one turn adds the 15 charts of its pair, or stops the script, keeping the outcome invariant |
| StdQueriesChart.TooManyRowsStop | amor/files/stdQueriesChart.py:74-82 | a file of the pair with more than 14 rows stops the script at that pair (`IndexError`) |
| StdQueriesChart.StaleTurnDrawsEmpty | amor/files/stdQueriesChart.py:46-82 | a pair whose first name has no tag draws its 15 charts into the previous charts directory, under the previous aMOR name, with every box empty |
| StdQueriesChart.NoRowsNoSamples | amor/files/stdQueriesChart.py:35-43 | a file without rows yields 14 empty sample lists |
| StdQueriesChart.EmptyCharts | amor/files/stdQueriesChart.py:84-506 | the charts of empty sample lists have every box empty |
| StdQueriesChart.DashlessTagStops | amor/files/stdQueriesChart.py:46-65 | a first name tagged `OWLAPI` without the dash sets the roles but not the charts directory, so the script stops at once (`NameError`) |
| StdQueriesChart.StdChartsDirOfRun | amor/files/stdQueriesChart.py:46-49 | for the files of a run, the charts directory is the run's, as in the average-time script, whichever prefix comes first |
| StdQueriesChart.MatchedStdPaths | amor/files/stdQueriesChart.py:382-506 | the charts of run `uni<u>-dep<d>` are saved as `single-query-stddev/query-<k>-Chart-<u>-<d>.html` and `total-stddev-Chart-<u>-<d>.html` in the run's charts directory |
| LubmTest.PlainHeaderColumns | amor/src/main/java/aMORanalysis/LUBMTest.java:42 | the plain header reads back at its `;` as exactly its 8 column names |
| LubmTest.ExtendedHeaderColumns | amor/src/main/java/aMORanalysis/LUBMTest.java:43-46 | the extended header reads back as exactly its 18 column names |
| LubmTest.TimeColumnNames | amor/src/main/java/aMORanalysis/LUBMTest.java:43-46 | the extended header's columns 5 to 14 are `time1[ns]` to `time10[ns]`, in order |
| LubmTest.HeaderColumns | amor/src/main/java/aMORanalysis/LUBMTest.java:246-253 | the header in use reads back as the columns of the version in use |
| LubmTest.HeaderHasNoNewLine | amor/src/main/java/aMORanalysis/LUBMTest.java:42-48 | neither header holds the line separator |
| LubmTest.WrapLong | amor/src/main/java/aMORanalysis/LUBMTest.java:85-95 | the Java `long` value of an exact sum: inside the `long` range and unchanged when it already fits |
| LubmTest.WrapAdd | amor/src/main/java/aMORanalysis/LUBMTest.java:95 | adding one duration to a wrapped `long` sum wraps the exact sum |
| LubmTest.Times | amor/src/main/java/aMORanalysis/LUBMTest.java:90-97 | one duration column per execution, each the decimal text of its duration |
| LubmTest.AverageBounds | amor/src/main/java/aMORanalysis/LUBMTest.java:98 | when the sum does not overflow, `timeSum/10` is the sum divided by ten rounded down |
| LubmTest.AllSolutionsSize | amor/src/main/java/aMORanalysis/LUBMTest.java:158-195 | the result list of the extended OWL-API version holds the rows of all executions |
| LubmTest.AmorColumns | amor/src/main/java/aMORanalysis/LUBMTest.java:75-98 | an aMOR line has one column per header column of the version in use |
| LubmTest.AmorLine | amor/src/main/java/aMORanalysis/LUBMTest.java:65-101 | an aMOR line can be composed exactly when the reference name holds at least two ids (else `get(1)` throws) |
| LubmTest.TrimTrailingSlashes | amor/src/main/java/aMORanalysis/aMORTest.java:276-278 | `new File(path)` drops trailing separators: the result is a prefix of the path, does not end in `/`, and only `/` follows it |
| LubmTest.FileName | amor/src/main/java/aMORanalysis/aMORTest.java:272-279 | `getName` of the path, trailing separators dropped first: the name holds no `/` |
| LubmTest.FileNameIsLastComponent | amor/src/main/java/aMORanalysis/aMORTest.java:272-279 | the name is the trimmed path's last component: a suffix of it, preceded by `/` unless it is the whole trimmed path |
| LubmTest.FileNameOfChild | amor/src/main/java/aMORanalysis/aMORTest.java:272-279 | `dir/name` followed by any number of `/` has file name `name`, so `a/b/` names `b` |
| LubmTest.OwlApiColumns | amor/src/main/java/aMORanalysis/LUBMTest.java:147-195 | an OWL-API line has one column per header column of the version in use |
| LubmTest.OwlApiLine | amor/src/main/java/aMORanalysis/LUBMTest.java:119-198 | an OWL-API line can be composed exactly when the CSV file name holds at least two ids |
| LubmTest.IdsHaveNoDelimiter | amor/src/main/java/aMORanalysis/LUBMTest.java:76-77 | ids read from a reference name never hold `;` |
| LubmTest.NumberHasNoDelimiter | amor/src/main/java/aMORanalysis/LUBMTest.java:79 | the decimal text of a number never holds `;` |
| LubmTest.TimesHaveNoDelimiter | amor/src/main/java/aMORanalysis/LUBMTest.java:96 | no duration column holds `;` |
| LubmTest.AmorColumnsClean | amor/src/main/java/aMORanalysis/LUBMTest.java:75-98 | every column but the rendered result is free of `;` |
| LubmTest.SplitClean | amor/src/main/java/aMORanalysis/LUBMTest.java:75-98 | columns free of `;` are read back exactly from the line that joins them |
| LubmTest.AmorLineMatchesHeader | amor/src/main/java/aMORanalysis/LUBMTest.java:65-101 | an aMOR line has as many columns as the header and reads back as them when the rendered result has no `;` |
| LubmTest.AmorColumnsIds | amor/src/main/java/aMORanalysis/LUBMTest.java:75-89 | the plain line puts `ids[0]` under `uniID`; the extended line swaps the two ids |
| LubmTest.AmorLineIdOrder | amor/src/main/java/aMORanalysis/LUBMTest.java:75-89 | for the reference name `u_d` the plain line writes `u` under `uniID` and the extended line writes `d` there |
| LubmTest.OwlApiLineIdOrder | amor/src/main/java/aMORanalysis/LUBMTest.java:147-162 | both OWL-API lines keep the ids in file-name order |
| LubmTest.OwlApiExtendedSize | amor/src/main/java/aMORanalysis/LUBMTest.java:158-195 | the extended OWL-API result size is the sum of the row counts of the ten executions |
| LubmTest.RunTrials | amor/src/main/java/aMORanalysis/LUBMTest.java:85-97 | the ten-execution loop appends `;` and each duration in order, keeps the `long` sum and gathers every row |
| LubmTest.AddTrial | amor/src/main/java/aMORanalysis/LUBMTest.java:91-96 | one loop turn keeps the line, the sum and the rows equal to those of the executions done |
| LubmTest.SumAfter | amor/src/main/java/aMORanalysis/LUBMTest.java:95 | the running `long` sum after one more duration is that of the longer list |
| LubmTest.LineAfter | amor/src/main/java/aMORanalysis/LUBMTest.java:96 | the line after one more duration joins one more duration column |
| LubmTest.SolutionsAfter | amor/src/main/java/aMORanalysis/LUBMTest.java:180-183 | the gathered rows after one more execution are the old ones followed by its rows |
| LubmTest.JoinStep | amor/src/main/java/aMORanalysis/LUBMTest.java:96-98 | appending `;` and a column to a joined line joins one more column |
| LubmTest.CloseLine | amor/src/main/java/aMORanalysis/LUBMTest.java:98 | appends the average, the axiom count, the result size and the rendered result as four columns |
| LubmTest.JoinPrefix | amor/src/main/java/aMORanalysis/LUBMTest.java:86-89 | the first four columns joined by `;` |
| LubmTest.AmorCsvLine | amor/src/main/java/aMORanalysis/LUBMTest.java:65-101 | composes exactly the aMOR line, or fails exactly when the ids are missing |
| LubmTest.OwlApiCsvLine | amor/src/main/java/aMORanalysis/LUBMTest.java:119-198 | composes exactly the OWL-API line, or fails exactly when the ids are missing |
| LubmTest.UpToFailure | amor/src/main/java/aMORanalysis/LUBMTest.java:255-262 | the lines written before the first exception: each one composed, followed by a failure or by the end |
| LubmTest.UpToFailureUnique | amor/src/main/java/aMORanalysis/LUBMTest.java:255-262 | any list of lines that meets that description is the one written |
| LubmTest.AmorLines | amor/src/main/java/aMORanalysis/LUBMTest.java:255-256 | the aMOR line of each query, in list order |
| LubmTest.OwlApiLines | amor/src/main/java/aMORanalysis/LUBMTest.java:296-297 | the OWL-API line of each query, in list order |
| LubmTest.CsvTextOne | amor/src/main/java/aMORanalysis/LUBMTest.java:226-234 | one line written is that line followed by the line separator |
| LubmTest.CsvFile.WriteCsvLine | amor/src/main/java/aMORanalysis/LUBMTest.java:226-234 | `writeCSVLine` appends the line and then the separator, and nothing else |
| LubmTest.CsvFile.WriteHeader | amor/src/main/java/aMORanalysis/LUBMTest.java:246-253 | an empty file receives the header of the version in use and its separator |
| LubmTest.WriteLines | amor/src/main/java/aMORanalysis/LUBMTest.java:255-262 | the file holds the header and the lines up to the first failure; `complete` iff none failed |
| LubmTest.CsvFileManager | amor/src/main/java/aMORanalysis/LUBMTest.java:242-276 | `<path>.csv` holds the header and the aMOR lines up to the first failure; the ontology is saved only when the list is non-empty and every line was written |
| LubmTest.OwlApiCsvFileManager | amor/src/main/java/aMORanalysis/LUBMTest.java:284-314 | `<path>.csv` holds the header and the OWL-API lines up to the first failure |
| LubmTest.OwlApiAllOrNothing | amor/src/main/java/aMORanalysis/LUBMTest.java:284-314 | an OWL-API file holds the line of every query or of none |
| LubmTest.CsvFileLines | amor/src/main/java/aMORanalysis/LUBMTest.java:242-276 | read back at its line separators, a CSV file is exactly its header and then its lines |
| LubmTest.HeaderThenLines | amor/src/main/java/aMORanalysis/LUBMTest.java:226-253 | a header and lines free of separators are read back as written |
| AmorTest.ResultsFileName | amor/src/main/java/aMORanalysis/aMORTest.java:251-254 | the name `uni<u>-dep<d>` of non-negative ids parses back to the decimal texts of both ids |
| AmorTest.TakeDigits | amor/src/main/java/aMORanalysis/aMORTest.java:262-265 | the longest all-digit prefix: a prefix of the input, all digits, followed by a non-digit or the end |
| AmorTest.DropNonDigits | amor/src/main/java/aMORanalysis/aMORTest.java:262-265 | a suffix of the input that is empty or starts with a digit |
| AmorTest.DigitRuns | amor/src/main/java/aMORanalysis/aMORTest.java:262-265 | the reference reading of the ids: every run is a non-empty all-digit text |
| AmorTest.Digits | amor/src/main/java/aMORanalysis/aMORTest.java:262-265 | the digits of a text, all digits and no longer than the text |
| AmorTest.DigitRunsKeepDigits | amor/src/main/java/aMORanalysis/aMORTest.java:262-265 | the runs, concatenated, are exactly the digits of the name in order: no digit lost or added |
| AmorTest.NoRunsNoDigits | amor/src/main/java/aMORanalysis/aMORTest.java:262-265 | there is no run exactly when the name has no digit (both directions) |
| AmorTest.DigitRunsSkip | amor/src/main/java/aMORanalysis/aMORTest.java:263 | leading non-digits never start a run |
| AmorTest.TrimStart | amor/src/main/java/aMORanalysis/aMORTest.java:264 | Java `trim` at the front never lengthens the text |
| AmorTest.TrimEnd | amor/src/main/java/aMORanalysis/aMORTest.java:264 | Java `trim` at the back never lengthens the text |
| AmorTest.CollapseShape | amor/src/main/java/aMORanalysis/aMORTest.java:263 | `replaceAll("[^0-9]+", " ")` yields an optional space, the digit runs separated by one space, an optional space |
| AmorTest.TrimFramed | amor/src/main/java/aMORanalysis/aMORTest.java:264 | `trim` removes exactly the blanks around a text that starts and ends visibly |
| AmorTest.TrimmedCollapse | amor/src/main/java/aMORanalysis/aMORTest.java:263-264 | the trimmed replacement is the digit runs joined by single spaces |
| AmorTest.IdsAreDigitRuns | amor/src/main/java/aMORanalysis/aMORTest.java:262-265 | `getIdsFromFileName` returns the maximal digit runs in order, or `[""]` when there is none |
| AmorTest.NoDigitsNoIds | amor/src/main/java/aMORanalysis/aMORTest.java:262-265 | a name without digits yields the one-element list holding the empty string |
| AmorTest.RunThenRest | amor/src/main/java/aMORanalysis/aMORTest.java:263 | a run followed by a non-digit is one id and the parse resumes after it |
| AmorTest.TwoRuns | amor/src/main/java/aMORanalysis/aMORTest.java:263 | two runs with a digit-free separator give exactly those two runs |
| AmorTest.TwoIds | amor/src/main/java/aMORanalysis/aMORTest.java:262-265 | a digit-free prefix, a run, a digit-free separator and a run parse to the two runs |
| AmorTest.ResultsNameParses | amor/src/main/java/aMORanalysis/aMORTest.java:251-265 | round trip: `getIdsFromFileName(getResultsFileNameFromIds(u, d))` is `[str(u), str(d)]` |
| AmorTest.ReferenceNameParses | amor/src/main/java/aMORanalysis/aMORTest.java:165-167 | the reference name `ids[0] + "_" + ids[1]` re-parses to the same first two ids |
| AmorTest.ParseId | amor/src/main/java/aMORanalysis/aMORTest.java:226 | `Integer.parseInt` succeeds only on a non-empty all-digit id whose value fits an `int` |
| AmorTest.ParseNat | amor/src/main/java/aMORanalysis/aMORTest.java:226 | parsing the decimal text of an `int`-sized natural gives that natural back |
| AmorTest.ResultsCsvPath | amor/src/main/java/aMORanalysis/aMORTest.java:225-233 | a results path exists exactly when there are two ids and both parse |
| AmorTest.ResultsPathOfNamedOntology | amor/src/main/java/aMORanalysis/aMORTest.java:225-233 | an ontology named `uni<u>-dep<d>` writes to `resultsDir/uni<u>-dep<d>/aMOR-uni<u>-dep<d>` |
| RestrictionFragments.FragmentLiterals | amor/src/main/java/it/emarolab/amor/owlInterface/SemanticRestriction.java:350-363 | each fragment is the literal it is built from, `"_"` appended where the source appends it |
| RestrictionFragments.FragmentsIsolated | amor/src/main/java/it/emarolab/amor/owlInterface/SemanticRestriction.java:350-363 | no fragment occurs inside another fragment, so each `contains` test can only match its own fragment |
| RestrictionFragments.FragmentStem | amor/src/main/java/it/emarolab/amor/owlInterface/SemanticRestriction.java:350-363 | a fragment holds the separator `'_'` at most as its last character |
| SemanticRestriction.DefClassTypeKind | amor/src/main/java/it/emarolab/amor/owlInterface/SemanticRestriction.java:366-594 | every class-definition constant is subject + quantifier + filler (or subject + CLASS) of a public kind |
| SemanticRestriction.DataDomainTypeKind | amor/src/main/java/it/emarolab/amor/owlInterface/SemanticRestriction.java:366-594 | every data-property-domain constant is the type string of a public kind with that subject |
| SemanticRestriction.DataRangeTypeKind | amor/src/main/java/it/emarolab/amor/owlInterface/SemanticRestriction.java:366-594 | the one data-property-range constant is the type string of the universal data kind |
| SemanticRestriction.ObjectDomainTypeKind | amor/src/main/java/it/emarolab/amor/owlInterface/SemanticRestriction.java:366-594 | every object-property-domain constant is the type string of a public kind with that subject |
| SemanticRestriction.ObjectRangeTypeKind | amor/src/main/java/it/emarolab/amor/owlInterface/SemanticRestriction.java:366-594 | every object-property-range constant is the type string of a public kind with that subject |
| SemanticRestriction.PublicTypeKind | amor/src/main/java/it/emarolab/amor/owlInterface/SemanticRestriction.java:366-594 | every public constant is the type string of a public kind |
| SemanticRestriction.PublicKindType | amor/src/main/java/it/emarolab/amor/owlInterface/SemanticRestriction.java:366-594 | every public kind has its constant among the public ones |
| SemanticRestriction.TypeStringSplits | amor/src/main/java/it/emarolab/amor/owlInterface/SemanticRestriction.java:628-704 | looking for a fragment in a type string amounts to looking in each of the fragments it is concatenated from |
| SemanticRestriction.TypeStringContains | amor/src/main/java/it/emarolab/amor/owlInterface/SemanticRestriction.java:628-704 | a fragment occurs in a kind's type string exactly when it is one of that kind's fragments |
| SemanticRestriction.PartsAreFragments | amor/src/main/java/it/emarolab/amor/owlInterface/SemanticRestriction.java:350-363 | the pieces a type string is concatenated from are all fragments |
| SemanticRestriction.RestrictionType.HashCode | amor/src/main/java/it/emarolab/amor/owlInterface/SemanticRestriction.java:620-623 | the hash of a restriction type is `31 + String.hashCode` of its type string, wrapped to an `int` |
| SemanticRestriction.SubjectOfKind | amor/src/main/java/it/emarolab/amor/owlInterface/SemanticRestriction.java:628-654 | a subject fragment occurs in a type string exactly when the kind has that subject |
| SemanticRestriction.FillerOfKind | amor/src/main/java/it/emarolab/amor/owlInterface/SemanticRestriction.java:659-673 | a filler fragment occurs in a type string exactly when the kind is quantified over that filler |
| SemanticRestriction.QuantifierOfKind | amor/src/main/java/it/emarolab/amor/owlInterface/SemanticRestriction.java:678-704 | a quantifier fragment occurs in a type string exactly when the kind has that quantifier |
| SemanticRestriction.ClassOfKind | amor/src/main/java/it/emarolab/amor/owlInterface/SemanticRestriction.java:659-663 | `CLASS` occurs in a type string exactly when the kind restricts over a class |
| SemanticRestriction.ClassDefinitionOfKind | amor/src/main/java/it/emarolab/amor/owlInterface/SemanticRestriction.java:628-630 | `isClassDefinition` holds exactly for kinds whose subject is a class definition |
| SemanticRestriction.DataPropertyDomainOfKind | amor/src/main/java/it/emarolab/amor/owlInterface/SemanticRestriction.java:634-636 | `isDataPropertyDomain` holds exactly for kinds whose subject is a data property domain |
| SemanticRestriction.DataPropertyRangeOfKind | amor/src/main/java/it/emarolab/amor/owlInterface/SemanticRestriction.java:640-642 | `isDataPropertyRange` holds exactly for kinds whose subject is a data property range |
| SemanticRestriction.ObjectPropertyDomainOfKind | amor/src/main/java/it/emarolab/amor/owlInterface/SemanticRestriction.java:646-648 | `isObjectPropertyDomain` holds exactly for kinds whose subject is an object property domain |
| SemanticRestriction.ObjectPropertyRangeOfKind | amor/src/main/java/it/emarolab/amor/owlInterface/SemanticRestriction.java:652-654 | `isObjectPropertyRange` holds exactly for kinds whose subject is an object property range |
| SemanticRestriction.RestrictionOnClassOfKind | amor/src/main/java/it/emarolab/amor/owlInterface/SemanticRestriction.java:659-661 | `isRestrictionOnClass` holds exactly for class restrictions |
| SemanticRestriction.RestrictionOnDataPropertyOfKind | amor/src/main/java/it/emarolab/amor/owlInterface/SemanticRestriction.java:665-667 | `isRestrictionOnDataProperty` holds exactly for kinds quantified over data |
| SemanticRestriction.RestrictionOnObjectPropertyOfKind | amor/src/main/java/it/emarolab/amor/owlInterface/SemanticRestriction.java:671-673 | `isRestrictionOnObjectProperty` holds exactly for kinds quantified over objects |
| SemanticRestriction.MinRestrictionOfKind | amor/src/main/java/it/emarolab/amor/owlInterface/SemanticRestriction.java:678-680 | `isMinRestriction` holds exactly for minimum-cardinality kinds |
| SemanticRestriction.MaxRestrictionOfKind | amor/src/main/java/it/emarolab/amor/owlInterface/SemanticRestriction.java:684-686 | `isMaxRestriction` holds exactly for maximum-cardinality kinds |
| SemanticRestriction.ExactRestrictionOfKind | amor/src/main/java/it/emarolab/amor/owlInterface/SemanticRestriction.java:690-692 | `isExactRestriction` holds exactly for exact-cardinality kinds |
| SemanticRestriction.SomeRestrictionOfKind | amor/src/main/java/it/emarolab/amor/owlInterface/SemanticRestriction.java:696-698 | `isSomeRestriction` holds exactly for existential kinds |
| SemanticRestriction.AllRestrictionOfKind | amor/src/main/java/it/emarolab/amor/owlInterface/SemanticRestriction.java:702-704 | `isAllRestriction` holds exactly for universal kinds |
| SemanticRestriction.SubjectPredicates | amor/src/main/java/it/emarolab/amor/owlInterface/SemanticRestriction.java:628-654 | the five subject predicates name exactly the kind's subject |
| SemanticRestriction.FillerPredicates | amor/src/main/java/it/emarolab/amor/owlInterface/SemanticRestriction.java:659-673 | of class, data and object, the predicate that holds names what the kind restricts over |
| SemanticRestriction.QuantifierPredicates | amor/src/main/java/it/emarolab/amor/owlInterface/SemanticRestriction.java:678-704 | the quantifier predicates name exactly the kind's quantifier; none holds for a class restriction |
| SemanticRestriction.TypeStringInjective | amor/src/main/java/it/emarolab/amor/owlInterface/SemanticRestriction.java:366-594 | different kinds have different type strings |
| SemanticRestriction.ExactlyOneSubject | amor/src/main/java/it/emarolab/amor/owlInterface/SemanticRestriction.java:628-654 | for every public constant exactly one subject predicate holds |
| SemanticRestriction.SubjectCount | amor/src/main/java/it/emarolab/amor/owlInterface/SemanticRestriction.java:628-654 | every kind's type string matches exactly one subject predicate |
| SemanticRestriction.ExactlyOneFiller | amor/src/main/java/it/emarolab/amor/owlInterface/SemanticRestriction.java:659-673 | for every public constant exactly one of class, data and object holds |
| SemanticRestriction.FillerCount | amor/src/main/java/it/emarolab/amor/owlInterface/SemanticRestriction.java:659-673 | every kind's type string matches exactly one of class, data and object |
| SemanticRestriction.QuantifierCount | amor/src/main/java/it/emarolab/amor/owlInterface/SemanticRestriction.java:678-704 | a class restriction matches no quantifier predicate, any other kind exactly one |
| SemanticRestriction.AtMostOneQuantifier | amor/src/main/java/it/emarolab/amor/owlInterface/SemanticRestriction.java:678-704 | for every public constant at most one quantifier predicate holds, and none exactly for a class restriction |
| SemanticRestriction.RestrictionTypeEqualsHash | amor/src/main/java/it/emarolab/amor/owlInterface/SemanticRestriction.java:612-623 | restriction types are equal exactly when their type strings are, and equal ones hash alike |
| SemanticRestriction.ExactDataClassIsExact | amor/src/main/java/it/emarolab/amor/owlInterface/SemanticRestriction.java:1677-1723 | the class documented as setting the maximum type sets the exact one, whose predicates say exact and not max |
| SemanticRestriction.ApplyingRestriction.constructor | amor/src/main/java/it/emarolab/amor/owlInterface/SemanticRestriction.java:733-754 | a concrete restriction's type is its class's constant; subject, value, property and cardinality are the arguments given |
| SemanticRestriction.ApplyingRestriction.FromExpression | amor/src/main/java/it/emarolab/amor/owlInterface/SemanticRestriction.java:1104-1115 | building from an OWL cardinality or values-from restriction copies its property, cardinality and filler |
| SemanticRestriction.ApplyingRestriction.SetSubject | amor/src/main/java/it/emarolab/amor/owlInterface/SemanticRestriction.java:761-763 | only the subject changes |
| SemanticRestriction.ApplyingRestriction.SetValue | amor/src/main/java/it/emarolab/amor/owlInterface/SemanticRestriction.java:770-772 | only the value changes |
| SemanticRestriction.ApplyingRestriction.SetProperty | amor/src/main/java/it/emarolab/amor/owlInterface/SemanticRestriction.java:879-881 | only the property changes, on a property or cardinality restriction |
| SemanticRestriction.ApplyingRestriction.SetCardinality | amor/src/main/java/it/emarolab/amor/owlInterface/SemanticRestriction.java:1018-1020 | only the cardinality changes, on a cardinality restriction |
| SemanticRestriction.ApplyingRestriction.HashCode | amor/src/main/java/it/emarolab/amor/owlInterface/SemanticRestriction.java:795-798 | the hash, chained level by level along the class hierarchy, is a Java `int` |
| SemanticRestriction.RestrictionEqualsMeans | amor/src/main/java/it/emarolab/amor/owlInterface/SemanticRestriction.java:785-1029 | two restrictions are equal exactly when they are the same object, or of the same class and agree on every field that class has; equality is symmetric |
| SemanticRestriction.RestrictionHashConsistent | amor/src/main/java/it/emarolab/amor/owlInterface/SemanticRestriction.java:785-1034 | equal restrictions have equal hash codes |
| SemanticRestriction.GetDataType | amor/src/main/java/it/emarolab/amor/owlInterface/SemanticRestriction.java:109-125 | a datatype exactly for the six supported Java classes, the one standing for that class; null for any other |
| ClassRestrictions.ExpressionTypeName | amor/src/main/java/it/emarolab/amor/owlInterface/ClassRestriction.java:327-339 | a tag has the name `"<null>"` exactly when it is none of the five restriction kinds |
| ClassRestrictions.ExpressionTypeNameInjective | amor/src/main/java/it/emarolab/amor/owlInterface/ClassRestriction.java:327-339 | the five restriction kinds have five different names |
| ClassRestrictions.ClassRestriction.OverDataProperty | amor/src/main/java/it/emarolab/amor/owlInterface/ClassRestriction.java:41-45 | a restriction over a data property: subject and property stored, no kind, cardinality or filler yet |
| ClassRestrictions.ClassRestriction.OverObjectProperty | amor/src/main/java/it/emarolab/amor/owlInterface/ClassRestriction.java:52-56 | a restriction over an object property: subject and property stored, no kind, cardinality or filler yet |
| ClassRestrictions.ClassRestriction.SetDataRestriction | amor/src/main/java/it/emarolab/amor/owlInterface/ClassRestriction.java:67-148 | on a data property the kind, the data range and (for min, max, exact) the cardinality are stored; on an object property nothing changes |
| ClassRestrictions.ClassRestriction.SetObjectRestriction | amor/src/main/java/it/emarolab/amor/owlInterface/ClassRestriction.java:156-225 | on an object property the kind, the class filler and (for min, max, exact) the cardinality are stored; on a data property nothing changes |
| ClassRestrictions.ClassRestriction.SetDataOnlyRestriction | amor/src/main/java/it/emarolab/amor/owlInterface/ClassRestriction.java:67-74 | kind becomes only and the data range is stored, over a data property only |
| ClassRestrictions.ClassRestriction.SetDataSomeRestriction | amor/src/main/java/it/emarolab/amor/owlInterface/ClassRestriction.java:84-91 | kind becomes some and the data range is stored, over a data property only |
| ClassRestrictions.ClassRestriction.SetDataMinRestriction | amor/src/main/java/it/emarolab/amor/owlInterface/ClassRestriction.java:102-110 | kind becomes min with the given cardinality and data range, over a data property only |
| ClassRestrictions.ClassRestriction.SetDataMaxRestriction | amor/src/main/java/it/emarolab/amor/owlInterface/ClassRestriction.java:121-129 | kind becomes max with the given cardinality and data range, over a data property only |
| ClassRestrictions.ClassRestriction.SetDataExactRestriction | amor/src/main/java/it/emarolab/amor/owlInterface/ClassRestriction.java:140-148 | kind becomes exact with the given cardinality and data range, over a data property only |
| ClassRestrictions.ClassRestriction.SetObjectOnlyRestriction | amor/src/main/java/it/emarolab/amor/owlInterface/ClassRestriction.java:156-163 | kind becomes only and the class filler is stored, over an object property only |
| ClassRestrictions.ClassRestriction.SetObjectSomeRestriction | amor/src/main/java/it/emarolab/amor/owlInterface/ClassRestriction.java:170-177 | kind becomes some and the class filler is stored, over an object property only |
| ClassRestrictions.ClassRestriction.SetObjectMinRestriction | amor/src/main/java/it/emarolab/amor/owlInterface/ClassRestriction.java:185-193 | kind becomes min with the given cardinality and class, over an object property only |
| ClassRestrictions.ClassRestriction.SetObjectMaxRestriction | amor/src/main/java/it/emarolab/amor/owlInterface/ClassRestriction.java:201-209 | kind becomes max with the given cardinality and class, over an object property only |
| ClassRestrictions.ClassRestriction.SetObjectExactRestriction | amor/src/main/java/it/emarolab/amor/owlInterface/ClassRestriction.java:217-225 | kind becomes exact with the given cardinality and class, over an object property only |
| ClassRestrictions.ClassRestriction.GetDataTypeRestriction | amor/src/main/java/it/emarolab/amor/owlInterface/ClassRestriction.java:232-239 | the data range over a data property, null over an object property |
| ClassRestrictions.ClassRestriction.GetObjectRestriction | amor/src/main/java/it/emarolab/amor/owlInterface/ClassRestriction.java:246-253 | the class filler over an object property, null over a data property |
| ClassRestrictions.ClassRestriction.GetCardinality | amor/src/main/java/it/emarolab/amor/owlInterface/ClassRestriction.java:260-265 | a cardinality exactly for the min, exact and max kinds, and then the stored one |
| ClassRestrictions.ClassRestriction.GetDataProperty | amor/src/main/java/it/emarolab/amor/owlInterface/ClassRestriction.java:280-287 | the property exactly when it is a data property |
| ClassRestrictions.ClassRestriction.GetObjectProperty | amor/src/main/java/it/emarolab/amor/owlInterface/ClassRestriction.java:293-300 | the property exactly when it is an object property |
| ClassRestrictions.ClassRestriction.GetExpressionTypeName | amor/src/main/java/it/emarolab/amor/owlInterface/ClassRestriction.java:327-339 | the name of the kind whose predicate holds, `"<null>"` exactly when none does |
| ClassRestrictions.ClassRestriction.HashCode | amor/src/main/java/it/emarolab/amor/owlInterface/ClassRestriction.java:439-449 | the seven-field hash is a Java `int` |
| ClassRestrictions.ExactlyOneTagPredicate | amor/src/main/java/it/emarolab/amor/owlInterface/ClassRestriction.java:344-370 | for a set kind exactly one of the five `is*Restriction` predicates holds |
| ClassRestrictions.ClassRestrictionEqualsHash | amor/src/main/java/it/emarolab/amor/owlInterface/ClassRestriction.java:422-449 | `equals` is reflexive, symmetric and transitive, and equal restrictions hash alike |
| ClassRestrictions.PropertyKindsExclusive | amor/src/main/java/it/emarolab/amor/owlInterface/ClassRestriction.java:377-387 | a restriction is over an object property exactly when it is not over a data property; only one of the property getters and one of the filler getters answers |
| Owl.ApplyChange | amor/src/main/java/it/emarolab/amor/owlInterface/OWLManipulator.java:234-242 | applying an add puts exactly that axiom in the ontology; a removal takes exactly it out |
| Owl.ApplyAllAppend | amor/src/main/java/it/emarolab/amor/owlInterface/OWLManipulator.java:247-255 | applying two lists of changes one after the other is applying their concatenation |
| OwlManipulator.Drain | amor/src/main/java/it/emarolab/amor/owlInterface/OWLManipulator.java:219-228 | `applyChanges()` leaves the queue empty and the buffering flag as it was |
| OwlManipulator.SubmitAllBuffered | amor/src/main/java/it/emarolab/amor/owlInterface/OWLManipulator.java:271-285 | while buffering, a run of mutators only extends the queue, in call order, and leaves the ontology alone |
| OwlManipulator.SubmitAllImmediate | amor/src/main/java/it/emarolab/amor/owlInterface/OWLManipulator.java:271-285 | without buffering, a run of mutators applies its changes in order and never touches the queue |
| OwlManipulator.BufferingDefersChanges | amor/src/main/java/it/emarolab/amor/owlInterface/OWLManipulator.java:219-285 | queueing a run of changes and then `applyChanges()` gives the same ontology as applying them at once |
| OwlManipulator.ApplyAllMembership | amor/src/main/java/it/emarolab/amor/owlInterface/OWLManipulator.java:247-255 | after a list of changes an axiom is present exactly when the last change on it adds it, or none concerns it and it was there |
| OwlManipulator.ApplyAllIdempotent | amor/src/main/java/it/emarolab/amor/owlInterface/OWLManipulator.java:247-255 | applying the same list of changes twice leaves what applying it once leaves |
| OwlManipulator.EntityRemovalErases | amor/src/main/java/it/emarolab/amor/owlInterface/OWLManipulator.java:1244-1254 | applying the removals of an entity deletes exactly the axioms that mention it |
| OwlManipulator.LastChangeOnIsMember | amor/src/main/java/it/emarolab/amor/owlInterface/OWLManipulator.java:247-255 | the last change on an axiom exists exactly when some change concerns it, and is one of the changes |
| OwlManipulator.Manipulator.constructor | amor/src/main/java/it/emarolab/amor/owlInterface/OWLManipulator.java:105-108 | the given ontology, an empty queue and the given buffering flag |
| OwlManipulator.Manipulator.WithDefaultBuffering | amor/src/main/java/it/emarolab/amor/owlInterface/OWLManipulator.java:113-116 | the one-argument constructor starts with buffering off |
| OwlManipulator.Manipulator.SetManipulationBuffering | amor/src/main/java/it/emarolab/amor/owlInterface/OWLManipulator.java:134-136 | only the flag changes |
| OwlManipulator.Manipulator.GetAddAxiomQueued | amor/src/main/java/it/emarolab/amor/owlInterface/OWLManipulator.java:168-180 | builds `AddAxiom(axiom)` and appends exactly it to the queue when asked, nothing otherwise; the ontology is untouched |
| OwlManipulator.Manipulator.GetAddAxiom | amor/src/main/java/it/emarolab/amor/owlInterface/OWLManipulator.java:155-157 | the one-argument form queues according to the current buffering flag |
| OwlManipulator.Manipulator.GetRemoveAxiomQueued | amor/src/main/java/it/emarolab/amor/owlInterface/OWLManipulator.java:202-214 | builds `RemoveAxiom(axiom)` and appends exactly it when asked, nothing otherwise |
| OwlManipulator.Manipulator.GetRemoveAxiom | amor/src/main/java/it/emarolab/amor/owlInterface/OWLManipulator.java:189-191 | the one-argument form queues according to the current buffering flag |
| OwlManipulator.Manipulator.ApplyChanges | amor/src/main/java/it/emarolab/amor/owlInterface/OWLManipulator.java:219-228 | the queue is applied in list order and then emptied |
| OwlManipulator.Manipulator.ApplyOneChange | amor/src/main/java/it/emarolab/amor/owlInterface/OWLManipulator.java:234-242 | one change is applied; the queue is left alone |
| OwlManipulator.Manipulator.ApplyChangeList | amor/src/main/java/it/emarolab/amor/owlInterface/OWLManipulator.java:247-255 | a list is applied in order; the queue is left alone |
| OwlManipulator.Manipulator.AddObjectPropertyB2Individual | amor/src/main/java/it/emarolab/amor/owlInterface/OWLManipulator.java:271-285 | returns the add of the object property assertion, queued when buffering and applied otherwise |
| OwlManipulator.Manipulator.AddDataPropertyB2Individual | amor/src/main/java/it/emarolab/amor/owlInterface/OWLManipulator.java:380-394 | returns the add of the data property assertion, queued when buffering and applied otherwise |
| OwlManipulator.Manipulator.AddIndividualB2Class | amor/src/main/java/it/emarolab/amor/owlInterface/OWLManipulator.java:454-468 | returns the add of the class assertion, queued when buffering and applied otherwise |
| OwlManipulator.Manipulator.RemoveObjectPropertyB2Individual | amor/src/main/java/it/emarolab/amor/owlInterface/OWLManipulator.java:1024-1039 | returns the removal of the object property assertion, queued when buffering and applied otherwise |
| OwlManipulator.Manipulator.RemoveDataPropertyB2Individual | amor/src/main/java/it/emarolab/amor/owlInterface/OWLManipulator.java:1133-1147 | returns the removal of the data property assertion, queued when buffering and applied otherwise |
| OwlManipulator.Manipulator.RemoveIndividualB2Class | amor/src/main/java/it/emarolab/amor/owlInterface/OWLManipulator.java:1206-1220 | returns the removal of the class assertion, queued when buffering and applied otherwise |
| OwlManipulator.Manipulator.ReplaceDataPropertyB2Individual | amor/src/main/java/it/emarolab/amor/owlInterface/OWLManipulator.java:1803-1814 | returns `[remove(old), add(new)]`, or `[add(new)]` for no old value, each submitted through its own mutator |
| OwlManipulator.Manipulator.RemoveIndividual | amor/src/main/java/it/emarolab/amor/owlInterface/OWLManipulator.java:1244-1254 | returns the entity removals, applied at once when not buffering and all queued otherwise |
| OwlManipulator.Manipulator.RemoveIndividuals | amor/src/main/java/it/emarolab/amor/owlInterface/OWLManipulator.java:1264-1269 | the removals of every individual, concatenated in iteration order, with the same queue-or-apply effect |
| OwlManipulator.Manipulator.ConvertSuperClassesToEquivalentClass | amor/src/main/java/it/emarolab/amor/owlInterface/OWLManipulator.java:695-713 | every change of the conversion is applied at once unless buffering, and queued in every case |
| OwlManipulator.FlattenSnoc | amor/src/main/java/it/emarolab/amor/owlInterface/OWLManipulator.java:1264-1269 | concatenating one more individual's removals extends the result by them |
| OwlManipulator.ReplaceLeavesNewValue | amor/src/main/java/it/emarolab/amor/owlInterface/OWLManipulator.java:1803-1814 | after an unbuffered replacement the new value is asserted and the old one no longer is, unless they coincide; nothing is queued |
| OwlManipulator.ConvertStateSnoc | amor/src/main/java/it/emarolab/amor/owlInterface/OWLManipulator.java:701-705 | the state after one more change of the conversion loop |
| OwlManipulator.ConvertThenDrainIsHarmless | amor/src/main/java/it/emarolab/amor/owlInterface/OWLManipulator.java:701-705 | without buffering the conversion still queues all its changes, and a later `applyChanges()` leaves the ontology as applying them once |
| OwlReferences.GetOWLName | amor/src/main/java/it/emarolab/amor/owlInterface/OWLReferencesInterface.java:125-163 | `null` exactly for a null object; a parsed name is never longer than the rendering; the out-of-bounds exception arises only through the `#` or `http` branches |
| OwlReferences.LastIndexOfSplit | amor/src/main/java/it/emarolab/amor/owlInterface/OWLReferencesInterface.java:133-134 | `lastIndexOf` finds the separator placed before a tail that lacks it |
| OwlReferences.IndexOfSplit | amor/src/main/java/it/emarolab/amor/owlInterface/OWLReferencesInterface.java:151-154 | `indexOf` finds the separator placed after a head that lacks it |
| OwlReferences.NameOfFragmentIri | amor/src/main/java/it/emarolab/amor/owlInterface/OWLReferencesInterface.java:133-138 | with a `#`, the name is the text after the last `#` up to the last `>`, or to the end when there is no `>` |
| OwlReferences.NameOfSlashIri | amor/src/main/java/it/emarolab/amor/owlInterface/OWLReferencesInterface.java:139-147 | with no `#` but `http` and `://`, an IRI ending in `>` is named by the text between its last `/` and that `>` |
| OwlReferences.SchemeSlice | amor/src/main/java/it/emarolab/amor/owlInterface/OWLReferencesInterface.java:139-147 | the scheme branch cuts between the last `/` and the last `>` |
| OwlReferences.SlashNameParts | amor/src/main/java/it/emarolab/amor/owlInterface/OWLReferencesInterface.java:139-147 | where the last `#`, `/` and `>` of `prefix/name>` are |
| OwlReferences.NameOfQuotedLiteral | amor/src/main/java/it/emarolab/amor/owlInterface/OWLReferencesInterface.java:148-158 | otherwise the name is the text between the first pair of double quotes |
| OwlReferences.IriExample | amor/src/main/java/it/emarolab/amor/owlInterface/OWLReferencesInterface.java:131-138 | `<http://www.co-ode.org/ontologies/pizza/pizza.owl#America>` is named `America` |
| OwlReferences.LiteralExample | amor/src/main/java/it/emarolab/amor/owlInterface/OWLReferencesInterface.java:149-156 | `"1"^^xsd:integer` is named `1` |
| OwlReferences.GetOWLNamesMeans | amor/src/main/java/it/emarolab/amor/owlInterface/OWLReferencesInterface.java:172-181 | the set form yields exactly the names of the OWL objects and skips every other element |
| OwlReferences.GetOnlyElement | amor/src/main/java/it/emarolab/amor/owlInterface/OWLReferencesInterface.java:548-556 | some member of a non-empty set; `null` for a null or empty set |
| OwlReferences.Register | amor/src/main/java/it/emarolab/amor/owlInterface/OWLReferencesInterface.java:728-736 | `addInstance` succeeds exactly when the name is free, and the name is registered afterwards |
| OwlReferences.Unregister | amor/src/main/java/it/emarolab/amor/owlInterface/OWLReferencesInterface.java:745-753 | `removeInstance` succeeds exactly when the name is registered, and it is not afterwards |
| OwlReferences.RegisterKeepsExisting | amor/src/main/java/it/emarolab/amor/owlInterface/OWLReferencesInterface.java:728-736 | a registered name keeps its reference: no later registration overwrites it |
| OwlReferences.RegisterUnregister | amor/src/main/java/it/emarolab/amor/owlInterface/OWLReferencesInterface.java:728-753 | registering a fresh name and removing it gives back the map; registering it twice fails the second time |
| OwlReferences.ReferencesContainer.constructor | amor/src/main/java/it/emarolab/amor/owlInterface/OWLReferencesInterface.java:710 | the container starts empty |
| OwlReferences.ReferencesContainer.GetOWLReferences | amor/src/main/java/it/emarolab/amor/owlInterface/OWLReferencesInterface.java:780-782 | the reference registered under the name, or null exactly when the name is not registered |
| OwlReferences.ReferencesContainer.AddInstance | amor/src/main/java/it/emarolab/amor/owlInterface/OWLReferencesInterface.java:728-736 | the map and the result are those of `addInstance` |
| OwlReferences.ReferencesContainer.RemoveInstance | amor/src/main/java/it/emarolab/amor/owlInterface/OWLReferencesInterface.java:286-291 | the map and the result are those of `removeInstance` |
| OwlReferences.ReferencesContainer.NewReference | amor/src/main/java/it/emarolab/amor/owlInterface/OWLReferencesInterface.java:86-251 | a reference is initialised and registered exactly when it has a name not yet registered; otherwise the map is unchanged and its paths are unset |
| JavaHash.Wrap | amor/src/main/java/it/emarolab/amor/owlInterface/DataPropertyRelations.java:191-194 | the `int` result of hash arithmetic is a 32-bit value congruent to the exact result modulo 2^32 |
| DataPropertyRelations.HashAsWritten | amor/src/main/java/it/emarolab/amor/owlInterface/DataPropertyRelations.java:191-194 | the hash as written, over property, individual and value set, is a Java `int` |
| DataPropertyRelations.Hash | amor/src/main/java/it/emarolab/amor/owlInterface/DataPropertyRelations.java:191-194 | the hash over the fields `equals` compares is a Java `int` |
| DataPropertyRelations.WrapSeparates | amor/src/main/java/it/emarolab/amor/owlInterface/DataPropertyRelations.java:191-194 | two exact hash results less than 2^32 apart stay different after the `int` wrap-around |
| DataPropertyRelations.HashAsWrittenBreaksEquals | amor/src/main/java/it/emarolab/amor/owlInterface/DataPropertyRelations.java:176-194 | two relations `equals` calls equal (same property and individual, values empty or holding one literal) get different hash codes as written |
| DataPropertyRelations.HashAgreesWithEquals | amor/src/main/java/it/emarolab/amor/owlInterface/DataPropertyRelations.java:176-194 | with the hash over property and individual, relations `equals` calls equal always hash alike |
| DataPropertyRelations.DataPropertyRelation.constructor | amor/src/main/java/it/emarolab/amor/owlInterface/DataPropertyRelations.java:39-43 | the relation holds the given individual, property and value set |
| DataPropertyRelations.DataPropertyRelation.FromNames | amor/src/main/java/it/emarolab/amor/owlInterface/DataPropertyRelations.java:53-58 | the property is looked up from the first name and the individual from the second (the names are swapped as written); the values are the literals given |
| DataPropertyRelations.DataPropertyRelation.OfIndividual | amor/src/main/java/it/emarolab/amor/owlInterface/DataPropertyRelations.java:64-66 | only the individual is set; no property, no values |
| DataPropertyRelations.DataPropertyRelation.FromPropertyName | amor/src/main/java/it/emarolab/amor/owlInterface/DataPropertyRelations.java:73-75 | only the property named by the argument is set; no individual, no values |
| DataPropertyRelations.DataPropertyRelation.OfPair | amor/src/main/java/it/emarolab/amor/owlInterface/DataPropertyRelations.java:82-85 | individual and property set, no values |
| DataPropertyRelations.DataPropertyRelation.FromPairNames | amor/src/main/java/it/emarolab/amor/owlInterface/DataPropertyRelations.java:93-96 | property from the first name, individual from the second, no values |
| DataPropertyRelations.DataPropertyRelation.SetProperty | amor/src/main/java/it/emarolab/amor/owlInterface/DataPropertyRelations.java:144-146 | only the property changes |
| DataPropertyRelations.DataPropertyRelation.SetIndividual | amor/src/main/java/it/emarolab/amor/owlInterface/DataPropertyRelations.java:152-154 | only the individual changes |
| DataPropertyRelations.DataPropertyRelation.SetValues | amor/src/main/java/it/emarolab/amor/owlInterface/DataPropertyRelations.java:161-163 | only the value set changes, to the one given |
| DataPropertyRelations.DataPropertyRelation.SetValue | amor/src/main/java/it/emarolab/amor/owlInterface/DataPropertyRelations.java:170-173 | the value set becomes exactly the one literal; property and individual unchanged |
| DataPropertyRelations.DataPropertyRelation.HashCodeAsWritten | amor/src/main/java/it/emarolab/amor/owlInterface/DataPropertyRelations.java:191-194 | the object's hash as written is a Java `int` |
| DataPropertyRelations.DataPropertyRelation.HashCode | amor/src/main/java/it/emarolab/amor/owlInterface/DataPropertyRelations.java:191-194 | the object's corrected hash is a Java `int` |
| DataPropertyRelations.RelationEqualsMeans | amor/src/main/java/it/emarolab/amor/owlInterface/DataPropertyRelations.java:182-189 | `equals` holds exactly for the same object or equal property and individual; it is symmetric and equal relations hash alike |
| ObjectPropertyRelations.ObjectPropertyRelation.constructor | amor/src/main/java/it/emarolab/amor/owlInterface/ObjectPropertyRelations.java:40-44 | the relation holds the given individual, property and value set |
| ObjectPropertyRelations.ObjectPropertyRelation.FromNames | amor/src/main/java/it/emarolab/amor/owlInterface/ObjectPropertyRelations.java:53-58 | the property is looked up from the first name and the individual from the second (swapped as written); the values are the individuals named |
| ObjectPropertyRelations.ObjectPropertyRelation.OfIndividual | amor/src/main/java/it/emarolab/amor/owlInterface/ObjectPropertyRelations.java:64-66 | only the individual is set; no property, no values |
| ObjectPropertyRelations.ObjectPropertyRelation.FromPropertyName | amor/src/main/java/it/emarolab/amor/owlInterface/ObjectPropertyRelations.java:73-75 | only the property named by the argument is set; no individual, no values |
| ObjectPropertyRelations.ObjectPropertyRelation.OfPair | amor/src/main/java/it/emarolab/amor/owlInterface/ObjectPropertyRelations.java:82-85 | individual and property set, no values |
| ObjectPropertyRelations.ObjectPropertyRelation.FromPairNames | amor/src/main/java/it/emarolab/amor/owlInterface/ObjectPropertyRelations.java:93-96 | property from the first name, individual from the second, no values |
| ObjectPropertyRelations.ObjectPropertyRelation.SetProperty | amor/src/main/java/it/emarolab/amor/owlInterface/ObjectPropertyRelations.java:102-104 | only the property changes |
| ObjectPropertyRelations.ObjectPropertyRelation.SetIndividual | amor/src/main/java/it/emarolab/amor/owlInterface/ObjectPropertyRelations.java:110-112 | only the individual changes |
| ObjectPropertyRelations.ObjectPropertyRelation.SetValue | amor/src/main/java/it/emarolab/amor/owlInterface/ObjectPropertyRelations.java:119-121 | only the value set changes, to the one given |
| ObjectPropertyRelations.ObjectPropertyRelation.HashCode | amor/src/main/java/it/emarolab/amor/owlInterface/ObjectPropertyRelations.java:181-184 | the hash over property and individual is a Java `int` |
| ObjectPropertyRelations.RelationEqualsHash | amor/src/main/java/it/emarolab/amor/owlInterface/ObjectPropertyRelations.java:172-184 | `equals` is reflexive, symmetric and transitive, and relations it calls equal hash alike |
| Logging.GetNamedInstance | amor/src/main/java/it/emarolab/amor/owlDebugger/Logger.java:211-227 | empty exactly for no object; otherwise the suffix from the first `@`, or a blank and the text after the last `.` |
| Logging.InsertByTime | amor/src/main/java/it/emarolab/amor/owlDebugger/Logger.java:321 | insertion adds exactly the one item |
| Logging.InsertByTimeBound | amor/src/main/java/it/emarolab/amor/owlDebugger/Logger.java:321 | inserting an item no earlier than a bound among such items keeps them so |
| Logging.InsertByTimeSorted | amor/src/main/java/it/emarolab/amor/owlDebugger/Logger.java:321 | inserting into a time-sorted list keeps it sorted |
| Logging.SortByTime | amor/src/main/java/it/emarolab/amor/owlDebugger/Logger.java:321 | `Collections.sort` by the instant of each item: a permutation of the items |
| Logging.SortByTimeSorted | amor/src/main/java/it/emarolab/amor/owlDebugger/Logger.java:321 | the sorted items are in time order |
| Logging.AtInstant | amor/src/main/java/it/emarolab/amor/owlDebugger/Logger.java:321 | the items logged at one instant, in order: none longer than the sequence, all at that instant |
| Logging.InsertByTimeStable | amor/src/main/java/it/emarolab/amor/owlDebugger/Logger.java:321 | an inserted item heads the items of its own instant and leaves the others' order alone |
| Logging.SortByTimeStable | amor/src/main/java/it/emarolab/amor/owlDebugger/Logger.java:321 | `Collections.sort` is stable: items logged at the same instant keep their buffer order |
| Logging.Cleared | amor/src/main/java/it/emarolab/amor/owlDebugger/Logger.java:312-317 | after a drain the followed buffers are empty and every other logger is untouched |
| Logging.DrainMembers | amor/src/main/java/it/emarolab/amor/owlDebugger/Logger.java:312-317 | an item is drained exactly when it is in the buffer of a followed logger |
| Logging.DrainCleared | amor/src/main/java/it/emarolab/amor/owlDebugger/Logger.java:312-317 | a second drain right after the first collects nothing |
| Logging.DrainIsTaken | amor/src/main/java/it/emarolab/amor/owlDebugger/Logger.java:312-317 | draining the names takes the buffers of their loggers in key order |
| Logging.LoggersOf | amor/src/main/java/it/emarolab/amor/owlDebugger/Logger.java:312-315 | the loggers of the enumerated names, in name order |
| Logging.LoggersDistinct | amor/src/main/java/it/emarolab/amor/owlDebugger/Logger.java:271-280 | distinct names give distinct loggers, since each logger is registered under its own name |
| Logging.LoggersCover | amor/src/main/java/it/emarolab/amor/owlDebugger/Logger.java:271-280 | every registered logger is the logger of one of the enumerated names |
| Logging.BuffersOf | amor/src/main/java/it/emarolab/amor/owlDebugger/Logger.java:313-314 | one buffer per logger |
| Logging.DrainLoggers | amor/src/main/java/it/emarolab/amor/owlDebugger/Logger.java:312-317 | over distinct loggers: the followed ones hand over their buffers in order and are emptied; the others keep theirs |
| Logging.DrainStep | amor/src/main/java/it/emarolab/amor/owlDebugger/Logger.java:313-316 | one turn of the drain keeps what was taken equal to the buffers of the loggers visited |
| Logging.BuildRows | amor/src/main/java/it/emarolab/amor/owlDebugger/Logger.java:323-330 | one row of time, class name and text per item, in item order |
| Logging.LogSystem.Register | amor/src/main/java/it/emarolab/amor/owlDebugger/Logger.java:278-280 | the logger becomes the one registered under the name, replacing any earlier one |
| Logging.LogSystem.constructor | amor/src/main/java/it/emarolab/amor/owlDebugger/Logger.java:72-77 | no logger, counter 0, rate 1, console printing on and file printing off |
| Logging.LogSystem.Snapshot | amor/src/main/java/it/emarolab/amor/owlDebugger/Logger.java:271 | the flag and buffer of every registered name |
| Logging.LogSystem.SnapshotOfLoggers | amor/src/main/java/it/emarolab/amor/owlDebugger/Logger.java:312-315 | the snapshot seen through the names is what the drain sees of their loggers |
| Logging.LogSystem.LoggersOfRegistry | amor/src/main/java/it/emarolab/amor/owlDebugger/Logger.java:312-315 | the loggers of the enumerated names are distinct and cover the registry |
| Logging.LogSystem.DrainPlan | amor/src/main/java/it/emarolab/amor/owlDebugger/Logger.java:312-317 | draining those loggers takes what the drain of the names specifies |
| Logging.LogSystem.SnapshotWith | amor/src/main/java/it/emarolab/amor/owlDebugger/Logger.java:160 | the snapshot with one logger's buffer extended |
| Logging.LogSystem.GetLogInfo | amor/src/main/java/it/emarolab/amor/owlDebugger/Logger.java:306-336 | the rows of the followed buffers sorted by time; afterwards every followed buffer is empty and the others untouched |
| Logging.LogSystem.TakeFollowedBuffers | amor/src/main/java/it/emarolab/amor/owlDebugger/Logger.java:311-318 | the loop collects exactly the drain of the registry and empties the followed buffers |
| Logging.LogSystem.PrintLogOnConsole | amor/src/main/java/it/emarolab/amor/owlDebugger/Logger.java:362-393 | one printed line per row, in row order |
| Logging.LogSystem.Flush | amor/src/main/java/it/emarolab/amor/owlDebugger/Logger.java:487-494 | drains the buffers, prints the sorted rows when console printing is on, and resets the counter |
| Logging.LogSystem.SetOrderPrintingRate | amor/src/main/java/it/emarolab/amor/owlDebugger/Logger.java:469-471 | sets the rate |
| Logging.LogSystem.SetPrintOnConsole | amor/src/main/java/it/emarolab/amor/owlDebugger/Logger.java:444-446 | sets the console switch |
| Logging.Logger.TakeIfFollowed | amor/src/main/java/it/emarolab/amor/owlDebugger/Logger.java:313-316 | a followed logger hands over its buffer and is emptied; another hands over nothing |
| Logging.Logger.NamedClass | amor/src/main/java/it/emarolab/amor/owlDebugger/Logger.java:233-238 | ` null` for no object, otherwise its simple class name |
| Logging.Logger.ItemFor | amor/src/main/java/it/emarolab/amor/owlDebugger/Logger.java:156-159 | the item records the time, the text with the error marker in front for an error, and class name plus instance name |
| Logging.Logger.constructor | amor/src/main/java/it/emarolab/amor/owlDebugger/Logger.java:94-142 | a logger with an empty buffer and the given flag, registered under its instance name |
| Logging.Logger.WithFirstLog | amor/src/main/java/it/emarolab/amor/owlDebugger/Logger.java:106-125 | registered, then the first text logged: nothing when not followed; the one item counted when the rate is not reached; a drain when it is |
| Logging.Logger.FirstLog | amor/src/main/java/it/emarolab/amor/owlDebugger/Logger.java:150-174 | the first log of a logger just registered |
| Logging.Logger.SetFlagToFollow | amor/src/main/java/it/emarolab/amor/owlDebugger/Logger.java:183-185 | sets the flag and keeps the buffer |
| Logging.Logger.CleanDebugText | amor/src/main/java/it/emarolab/amor/owlDebugger/Logger.java:250-252 | a fresh empty buffer and the same flag |
| Logging.Logger.AddDebugString | amor/src/main/java/it/emarolab/amor/owlDebugger/Logger.java:153-174 | nothing for a logger not followed; otherwise the item is appended and counted, and when the counter reaches the rate all followed buffers are drained, printed in time order, and the counter reset |
| Logging.Logger.Record | amor/src/main/java/it/emarolab/amor/owlDebugger/Logger.java:159-161 | appends the item and counts it; the registry snapshot grows by that item |
| Logging.Logger.RemoveDebug | amor/src/main/java/it/emarolab/amor/owlDebugger/Logger.java:258-277 | every entry holding this logger leaves the registry and nothing else changes |
| Logging.LoggerFlags.constructor | amor/src/main/java/it/emarolab/amor/owlDebugger/Logger.java:578-631 | all nine switches start on |
| Logging.LoggerFlags.SetAllLoggingFlags | amor/src/main/java/it/emarolab/amor/owlDebugger/Logger.java:748-758 | turns all nine switches on |
| Logging.LoggerFlags.ResetAllLoggingFlags | amor/src/main/java/it/emarolab/amor/owlDebugger/Logger.java:762-772 | turns all nine switches off |
| FileManagement.DefaultBasePath | amor/src/main/java/it/emarolab/amor/owlDebugger/FileManager.java:45 | the default base path is the user directory followed by `/files/logs/` |
| FileManagement.DataHourString | amor/src/main/java/it/emarolab/amor/owlDebugger/FileManager.java:415-420 | the time stamp starts with the day and `-`, ends with `_`, holds the milliseconds last on request, and has no line separator |
| FileManagement.LastToken | amor/src/main/java/it/emarolab/amor/owlDebugger/FileManager.java:342-347 | the last `.`-token is absent exactly when the path is all dots; otherwise it is non-empty and dot-free |
| FileManagement.LastTokenPlace | amor/src/main/java/it/emarolab/amor/owlDebugger/FileManager.java:342-347 | the token found starts the path or follows a `.`, and only dots follow it |
| FileManagement.FormatOfBuiltPath | amor/src/main/java/it/emarolab/amor/owlDebugger/FileManager.java:139-142 | a path built as `prefix.format` reports `format` back, whatever the prefix |
| FileManagement.GetFormatFromAbsolutePath | amor/src/main/java/it/emarolab/amor/owlDebugger/FileManager.java:342-353 | the tokenizer loop ends with the last token of the path (`None` where the null `format` makes `equals` throw) |
| FileManagement.DotStep | amor/src/main/java/it/emarolab/amor/owlDebugger/FileManager.java:346-347 | a `.` read by the tokenizer leaves the last token unchanged |
| FileManagement.TokenStep | amor/src/main/java/it/emarolab/amor/owlDebugger/FileManager.java:346-347 | a non-dot character extends the current token from its start |
| FileManagement.LastDot | amor/src/main/java/it/emarolab/amor/owlDebugger/FileManager.java:346-347 | the last `.` of a prefix one character longer |
| FileManagement.TxtFormatAppend | amor/src/main/java/it/emarolab/amor/owlDebugger/FileManager.java:360-365 | the text of two lists is the text of the first followed by that of the second |
| FileManagement.TxtFormatCons | amor/src/main/java/it/emarolab/amor/owlDebugger/FileManager.java:360-365 | the text of `x :: rest` is `x`, the line separator and the text of `rest` |
| FileManagement.TxtFormatBlank | amor/src/main/java/it/emarolab/amor/owlDebugger/FileManager.java:255-256 | the formatted text is blank exactly when every string is |
| FileManagement.SplitTxtFormat | amor/src/main/java/it/emarolab/amor/owlDebugger/FileManager.java:360-365 | read back at its line separators, the text gives back the strings |
| FileManagement.InTxtFormat | amor/src/main/java/it/emarolab/amor/owlDebugger/FileManager.java:360-365 | the loop yields every string followed by the line separator, in order |
| FileManagement.LogFormat | amor/src/main/java/it/emarolab/amor/owlDebugger/FileManager.java:368-373 | a log text reads back as the time line with milliseconds followed by the lines of the plain text |
| FileManagement.SplitLogFormat | amor/src/main/java/it/emarolab/amor/owlDebugger/FileManager.java:368-373 | the lines of a log text are the time line and then exactly the strings |
| FileManagement.InLogFormat | amor/src/main/java/it/emarolab/amor/owlDebugger/FileManager.java:368-373 | the time line, then the plain text |
| FileManagement.LineWithHeader | amor/src/main/java/it/emarolab/amor/owlDebugger/FileManager.java:370-371 | a header free of line separators comes back as the first line |
| FileManagement.InJavaFormat | amor/src/main/java/it/emarolab/amor/owlDebugger/FileManager.java:375-377 | the Java format is the plain text |
| FileManagement.FileManager.constructor | amor/src/main/java/it/emarolab/amor/owlDebugger/FileManager.java:41-49 | a manager with its path, format, base path and no writer |
| FileManagement.FileManager.Create | amor/src/main/java/it/emarolab/amor/owlDebugger/FileManager.java:107-144 | the file path and format chosen by `initialize` for each of the default and explicit path, name and format; an unknown format is reported on the console; a path without a token throws |
| FileManagement.FileManager.LoadFile | amor/src/main/java/it/emarolab/amor/owlDebugger/FileManager.java:156-180 | the file exists afterwards (empty if it was missing) and an open writer is attached |
| FileManagement.FileManager.CloseFile | amor/src/main/java/it/emarolab/amor/owlDebugger/FileManager.java:191-203 | closing a writer never created throws; otherwise the writer is closed |
| FileManagement.FileManager.DeleteFile | amor/src/main/java/it/emarolab/amor/owlDebugger/FileManager.java:272-282 | succeeds exactly when the file existed, which then no longer exists; a failure is reported on the console |
| FileManagement.FileManager.Formatted | amor/src/main/java/it/emarolab/amor/owlDebugger/FileManager.java:244-251 | the text for each format: plain for `txt` and `java`, time line and plain for `log`, nothing for any other |
| FileManagement.FileManager.PrintOnFile | amor/src/main/java/it/emarolab/amor/owlDebugger/FileManager.java:239-264 | a blank text writes nothing; otherwise the text is appended through an open writer, a closed writer fails with a report, a missing writer throws; the `owl` format with no string throws |
| FileManagement.FileManager.PrintOnFileOverwrite | amor/src/main/java/it/emarolab/amor/owlDebugger/FileManager.java:221-230 | overwriting with a writer leaves the file holding exactly the new text; otherwise it is the plain `printOnFile` |
| Following.FirstIndex | amor/src/main/java/it/emarolab/amor/owlDebugger/OFGUI/individualGui/FollowingManager.java:84-86 | `indexOf`: the first index holding the element, or -1 exactly when it is absent |
| Following.RemoveAt | amor/src/main/java/it/emarolab/amor/owlDebugger/OFGUI/individualGui/FollowingManager.java:98-99 | `ArrayList.remove(k)`: the elements before `k` stay, the ones after shift down by one |
| Following.RemoveAtMultiset | amor/src/main/java/it/emarolab/amor/owlDebugger/OFGUI/individualGui/FollowingManager.java:98-99 | a removal takes out exactly the element at `k`: nothing else is lost or added |
| Following.FollowingManager.constructor | amor/src/main/java/it/emarolab/amor/owlDebugger/OFGUI/individualGui/FollowingManager.java:20-33 | a manager gets its lists and is registered exactly when its type is below 5 and its frame id is non-negative and not yet taken |
| Following.FollowingManager.AddFollowText | amor/src/main/java/it/emarolab/amor/owlDebugger/OFGUI/individualGui/FollowingManager.java:48-61 | the pair is appended at the same index of both lists exactly when the manager has lists, the text is not followed and the colour is not taken; otherwise nothing changes |
| Following.FollowingManager.AddFollowTexts | amor/src/main/java/it/emarolab/amor/owlDebugger/OFGUI/individualGui/FollowingManager.java:35-46 | with lists of equal length the count is that length whatever each attempt gave, only texts of the list are appended, and the lists stay parallel; otherwise nothing changes and 0 is returned |
| Following.FollowingManager.RemoveFollowingText | amor/src/main/java/it/emarolab/amor/owlDebugger/OFGUI/individualGui/FollowingManager.java:94-108 | the first occurrence of the text and the colour at its index leave both lists; an absent text returns false and changes nothing; a manager without lists throws |
| Following.FollowingManager.RemoveFrameFollowing | amor/src/main/java/it/emarolab/amor/owlDebugger/OFGUI/individualGui/FollowingManager.java:138-140 | the entry under the manager's frame id leaves the registry |
| Following.FollowingManager.RemoveFollowingTexts | amor/src/main/java/it/emarolab/amor/owlDebugger/OFGUI/individualGui/FollowingManager.java:110-117 | the texts are removed in turn; the count is the number present when their turn came |
| Following.TextsAfterRemoval | amor/src/main/java/it/emarolab/amor/owlDebugger/OFGUI/individualGui/FollowingManager.java:99 | removing a present text takes out exactly one copy of it; an absent text leaves the list as it was |
| Following.ColorsAfterRemoval | amor/src/main/java/it/emarolab/amor/owlDebugger/OFGUI/individualGui/FollowingManager.java:98 | the colour list keeps every colour but the one at the index of the removed text |
| Following.RemovalKeepsPairs | amor/src/main/java/it/emarolab/amor/owlDebugger/OFGUI/individualGui/FollowingManager.java:94-108 | after a removal every remaining text keeps the colour it was paired with |
| Following.ColorsAfterRemovals | amor/src/main/java/it/emarolab/amor/owlDebugger/OFGUI/individualGui/FollowingManager.java:110-117 | after a series of removals the colour list is as long as the text list |
| Following.RemovedCount | amor/src/main/java/it/emarolab/amor/owlDebugger/OFGUI/individualGui/FollowingManager.java:110-117 | the count of successful removals is at most the number of texts tried |
| Following.RemovedCountShrinks | amor/src/main/java/it/emarolab/amor/owlDebugger/OFGUI/individualGui/FollowingManager.java:110-117 | every successful removal takes exactly one text out: the remaining texts plus the count give the original length |
| Following.RemovalsSnoc | amor/src/main/java/it/emarolab/amor/owlDebugger/OFGUI/individualGui/FollowingManager.java:110-117 | removing one more text acts on the lists the earlier removals left |
| Following.FollowingRegistry.constructor | amor/src/main/java/it/emarolab/amor/owlDebugger/OFGUI/individualGui/FollowingManager.java:173-176 | the registry starts empty |
| Following.FollowingRegistry.IsFollowedText | amor/src/main/java/it/emarolab/amor/owlDebugger/OFGUI/individualGui/FollowingManager.java:190-214 | `isFollowed(String)`: true for null, else exactly when some registered manager lists the text |
| Following.FollowingRegistry.IsChosenColor | amor/src/main/java/it/emarolab/amor/owlDebugger/OFGUI/individualGui/FollowingManager.java:277-287 | `isChoosedColor`: exactly when some registered manager holds an equal colour |
| Following.FollowingRegistry.IsFollowedColor | amor/src/main/java/it/emarolab/amor/owlDebugger/OFGUI/individualGui/FollowingManager.java:216-248 | `isFollowed(Color)`: true for null; the two sentinel colours are taken exactly when some manager holds an equal colour; any other colour is free |
| Following.FollowingRegistry.AddFollowTextTo | amor/src/main/java/it/emarolab/amor/owlDebugger/OFGUI/individualGui/FollowingManager.java:63-70 | through the frame's manager, if any; no other manager changes |
| Following.FollowingRegistry.AddFollowTextsTo | amor/src/main/java/it/emarolab/amor/owlDebugger/OFGUI/individualGui/FollowingManager.java:72-79 | through the frame's manager, if any: the count is the list length when both lists match; no other manager changes |
| Following.FollowingRegistry.ColorOfFollowed | amor/src/main/java/it/emarolab/amor/owlDebugger/OFGUI/individualGui/FollowingManager.java:81-92 | returns the colour at the first index of a text the frame's manager lists, else null |
| Following.FollowingRegistry.RemoveFollowingTextAt | amor/src/main/java/it/emarolab/amor/owlDebugger/OFGUI/individualGui/FollowingManager.java:119-126 | through the frame's manager, if any, with the effect of the instance removal |
| Following.FollowingRegistry.RemoveFollowingTextsAt | amor/src/main/java/it/emarolab/amor/owlDebugger/OFGUI/individualGui/FollowingManager.java:128-136 | each text removed in turn through the frame's manager; the count is that of the instance removals |
| Following.FollowingRegistry.RemoveFrameFollowing | amor/src/main/java/it/emarolab/amor/owlDebugger/OFGUI/individualGui/FollowingManager.java:142-144 | the frame id leaves the registry and nothing else changes |
| Following.FollowingRegistry.ColorMapKeys | amor/src/main/java/it/emarolab/amor/owlDebugger/OFGUI/individualGui/FollowingManager.java:289-316 | a text is in the colour map exactly when a visited manager lists it |
| Following.FollowingRegistry.ColorMapValue | amor/src/main/java/it/emarolab/amor/owlDebugger/OFGUI/individualGui/FollowingManager.java:289-316 | a mapped text gets colour 0 of the first visited manager that lists it, since the index `i` never advances |
| Following.FollowingRegistry.AllColorToFollow | amor/src/main/java/it/emarolab/amor/owlDebugger/OFGUI/individualGui/FollowingManager.java:289-316 | the loops build exactly that colour map, over the keys in map order |
| Following.WithFirstColor | amor/src/main/java/it/emarolab/amor/owlDebugger/OFGUI/individualGui/FollowingManager.java:302-311 | the texts not yet mapped are added with the given colour; mapped texts keep theirs |
| Following.AddFirstColor | amor/src/main/java/it/emarolab/amor/owlDebugger/OFGUI/individualGui/FollowingManager.java:302-311 | the inner loop adds exactly those entries |
| Following.ListHas | amor/src/main/java/it/emarolab/amor/owlDebugger/OFGUI/individualGui/FollowingManager.java:198-206 | the inner loop finds the text exactly when the list holds it |

## Left out

- Plotting and rendering (`go.Bar`, `go.Box`, layouts, colours, `plotly.offline.plot`), `os.makedirs` and `os.path.exists`: third-party output; the model records each chart's series, labels and the file path it is saved to.
- `os.walk`: its order depends on the file system, so the walked names are an input sequence; `os.path.realpath` of a bare name is the working directory (a parameter) + `/` + the name, ignoring symbolic links.
- File reading in the Python scripts: `open` and `csv.DictReader` become a function from a path to its rows (maps from column name to text); `csv.field_size_limit` and missing-file errors are not modelled.
- Timing in `LUBMTest`: `System.nanoTime`, the timestamp and the query engines are inputs (measured times, solution counts, the rendered result map); the SPARQL execution and `sparql2Msg` are not modelled, nor the `IOException` of `FileWriter`.
- `aMORTest.testQueriesOnOntologies` and the other benchmark drivers: directory creation, ontology loading and timing; only the names and paths they compute are modelled.
- `OWLManipulator`: only the representative mutators (object, data and class assertions, their removal, the data replacement, individual removal, superclass conversion) are modelled; the other add/remove/replace methods follow the same queue-or-apply pattern over other axiom kinds. The OWL API's `applyChanges` and change generation (`OWLEntityRemover`) are abstract; `InconsistentOntologyException` handling and logging are not modelled.
- `OWLReferencesInterface`: the reasoner, manager and ontology set-up, the `consistent` flag (set by the reasoner) and the OWL API getters are not modelled; `getOWLName` works on the object's `toString` text, given as input.
- `OWLReferences.java`, `OWLEnquirer.java`, `OWLLibrary.java`, the exporters and reasoner monitors: lock wrappers, reasoner queries and floating-point literal conversion with no local semantics.
- `ClassRestriction`: `getObjectName` and `toString` depend on the OWL API's rendering of data ranges; the plain getters are field reads. The `isDataProperty == null` branches cannot occur, since both constructors set it.
- `SemanticRestriction`: the interfaces and the 45 concrete classes are one class whose `kind` stands for the concrete class; `toString`, name getters and the axiom builders (OWL API) are not modelled.
- `DataPropertyRelations`, `ObjectPropertyRelations`: getters and `toString` are field reads or rendering; OWL objects are hashed through their names' `String.hashCode`, standing for the OWL API's own hash codes.
- DataPropertyRelations.DataPropertyRelation.constructor, DataPropertyRelations.DataPropertyRelation.SetValues, DataPropertyRelations.DataPropertyRelation.SetValue, ObjectPropertyRelations.ObjectPropertyRelation.constructor, ObjectPropertyRelations.ObjectPropertyRelation.SetValue: the Java relation keeps the caller's own `Set` object, and `setValues(OWLLiteral)` clears and refills that object in place; the model's value sets are values, so the change seen by the caller and by other relations sharing the set, and the hash of a relation already stored in a `HashSet`, are not captured.
- `Logger`: the wall clock is a parameter (a timestamp is an instant with its formatted text); `printLogOnFile`, `setPrintOnFile`, `getTableInfo`, `printActiveIstances`, `startGui` and the thread safety of `synchronized` are not modelled; the `ConcurrentHashMap` iteration order is a parameter; the individual flag getters and setters are plain field accesses on `LoggerFlags`.
- Logging.Logger.WithFirstLog: states the registration and the counter outcome of the first log, not the printed lines of a drain, which `Logging.LogSystem.GetLogInfo` and `Logging.LogSystem.PrintLogOnConsole` state.
- `FileManager`: file contents are a field; `BufferedWriter`/`FileReader` I/O errors, `inOWLFormat` (OWL API saving), `ShowError` dialogs and `System.exit`, `mkdirs` and `catchCaller` are not modelled.
- `FollowingManager`: `HashMap` iteration order is a parameter; the console printing of `printActiveIstances`, the `confronto` line `isFollowed(Color)` prints for each colour it compares (FollowingManager.java:229-230), `finalize` and the getters are not modelled; a `Color` is its RGB components plus an object identity, with no further AWT behaviour.
- Following.FollowingManager.RemoveFollowingText: models an absent text as returning false with no change. That holds on Java 8, where `ArrayList.remove(-1)` throws the `ArrayIndexOutOfBoundsException` caught at FollowingManager.java:101; from Java 9 on it throws an `IndexOutOfBoundsException` that escapes the method, which the model does not capture.
- Following.FollowingManager.AddFollowTexts: states the count and that only listed texts are appended, not the outcome of each element, which `Following.FollowingManager.AddFollowText` states.

## Findings

| source | as written | input that shows it | evidently intended | confidence | as-written member | corrected member |
|---|---|---|---|---|---|---|
| amor/src/main/java/it/emarolab/amor/owlInterface/DataPropertyRelations.java:191-194 | `hashCode` hashes property, individual and the value set, while `equals` (lines 182-189) compares only property and individual | two relations with the same property and individual, one with no values and one holding the literal `"a"`: equal, with different hash codes | hash the fields `equals` compares, as `ObjectPropertyRelations.hashCode` does | high, not executed | DataPropertyRelations.HashAsWrittenBreaksEquals | DataPropertyRelations.HashAgreesWithEquals |
