# Edge job-data pipeline: verified model of its decision and string rules

This project models the self-contained logic of an edge deployment made of four parts:

- a Greengrass publisher that emits synthetic wind-turbine job records;
- a React edge UI with an upload page and a job page;
- a file-uploader component that exports files to S3 through the stream manager;
- that component's logging utilities.

It states and proves what each rule does. There is one Dafny module per source file. Four shared modules support them:

- `Wrappers` holds `Option`.
- `PrintfStyle` holds Python's `%` formatting of a message with positional arguments.
- `Strings` holds the Python and JavaScript string built-ins the sources rely on: `split(sep)[-1]`, `split(sep).pop()`, `in`, `replace` with a string pattern and with a global pattern, `str(int)` and `lower()` on ASCII.
- `JsonValues` holds the JSON-like values the publisher builds and the job page reads.

The modules and the form each takes:

- `Logging` (`_logging.py`): functions for the request classifier, `stack` and `formatException`. The classes `LogRecord` and `ANSIFormatter` cover colorize, decolorize and format, which mutate the record. The class `Logger` holds the `process` loop.
- `S3Export` (`stream_manager_s3.py`): functions for the key and the URL. The polling loop is written as methods with `while` and `for` loops, proved against the fold `Poll`/`StepBatch`.
- `FileUpload` (`FileUpload.jsx`): a `JsArray` class with an in-place `Pop`, and `RemoveItems` as a loop. The `useFiles` hook and the page are classes.
- `JobPage` (`Job.jsx`): the normalisation and `resurveykey` are functions. The dialog is a transition function `Step`, and a `Page` class has handlers proved against it.
- `Publisher` (`dummy_publisher.py`): `generate_message` is a function of its lists and of the random draws.

Python exceptions and JavaScript TypeErrors that end an operation become `None`. Examples are an empty status code, the KeyError of an unknown level on a TTY, and a missing key on the job page.

The code is followed where its own documentation says otherwise:

- The docstring of `decolorize` says it removes `color` and `reset`. The code deletes all three attributes of `ATTRS`, and `Decolorize` does the same.
- `formatException` computes a function label that it never uses. `FormatException` returns the line the code returns.
- The level methods' docstrings name the standard levels, but the module's own table names them. `warning` logs at 30, which the table calls WARN. `critical` logs at 50, which it calls FATAL. `exception` says CRITICAL, yet it logs at 60, which the table calls TRACE. `CallFor` follows the numbers and the table.
- The job page lowercases only the first `True` and the first `False`. `replace` is called with a string pattern there. `Normalize` does the same, and `OnlyFirstTrueLowercased` shows a later `True` surviving.

## Model

| member | source | states |
|---|---|---|
| Logging.EveryLevelHasHue | components/com.fileUploader/src/jobdata/jobdata/utils/_logging.py:63-83 | every level of the level-name table has an ANSI hue; the hue table is exactly those levels plus the gray hue 90 |
| Logging.CallFor | components/com.fileUploader/src/jobdata/jobdata/utils/_logging.py:470-496 | `debug` logs at DEBUG, `info` at INFO, `warning`/`warn` at WARN, `error` at ERROR, `critical`/`fatal` at FATAL, `exception`/`trace` at TRACE, each a level with a hue; only `exception`/`trace` request exception info; the call fails (TypeError) exactly for a keyword `_log` does not take, or an `exc_info=` given to `exception`/`trace`; otherwise the keyword arguments pass unchanged |
| Logging.LevelMethodAliases | components/com.fileUploader/src/jobdata/jobdata/utils/_logging.py:494-496 | `fatal`, `warn` and `trace` behave exactly as `critical`, `warning` and `exception` |
| Logging.RequestLevel | components/com.fileUploader/src/jobdata/jobdata/utils/_logging.py:606-616 | an empty code fails (IndexError); every other code gets a named level; INFO exactly for "200" |
| Logging.RequestLevelByStatusClass | components/com.fileUploader/src/jobdata/jobdata/utils/_logging.py:607-616 | the classifier equals a first-character rule with "200" singled out: 1xx DEBUG, 3xx WARN, 4xx ERROR, every other 2xx and every other first character FATAL |
| Logging.RequestLevelExamples | components/com.fileUploader/src/jobdata/jobdata/utils/_logging.py:602-616 | the default "-" is FATAL, "200" INFO, "201" FATAL, "302"/"304" WARN, "404"/"418" ERROR, "500" FATAL |
| Logging.FunctionLabel | components/com.fileUploader/src/jobdata/jobdata/utils/_logging.py:617-620 | a routed path gives its endpoint followed by "()", an unknown one "a non-existent function" |
| Logging.FunctionLabelRevealsRouting | components/com.fileUploader/src/jobdata/jobdata/utils/_logging.py:617-620 | the label ends with "()" if and only if the path is routed |
| Logging.RequestKinds | components/com.fileUploader/src/jobdata/jobdata/utils/_logging.py:621-622 | each request level's lower-cased name is one of the logger methods debug, info, warn, error, fatal |
| Logging.LogRequest | components/com.fileUploader/src/jobdata/jobdata/utils/_logging.py:601-625 | a request line exists exactly when the code is non-empty; it is logged through the lower-cased name of the classified level, and its text starts with "Mapped URL path [path] to" and the function label |
| Logging.Dotted | components/com.fileUploader/src/jobdata/jobdata/utils/_logging.py:213 | same length as the input; every separator becomes a dot and every other character is kept |
| Logging.Trim | components/com.fileUploader/src/jobdata/jobdata/utils/_logging.py:213-215 | Python's `[start:-3]` slice: the text between the first `start` and the last three characters, or empty when too short |
| Logging.StackBase | components/com.fileUploader/src/jobdata/jobdata/utils/_logging.py:212 | definition; its meaning is in `Logging.StackOfPath` and `Logging.StackOutsideBase` |
| Logging.Stack | components/com.fileUploader/src/jobdata/jobdata/utils/_logging.py:189-218 | "<stdin>" gives "shell"; otherwise it fails exactly for an empty path or an empty cut base; a result always ends with the function suffix |
| Logging.StackOfModule | components/com.fileUploader/src/jobdata/jobdata/utils/_logging.py:212-217 | for a path with a single occurrence of its base, the name is the part after the base, dotted, trimmed as the ":" rule says, plus the function suffix |
| Logging.StackOfPath | components/com.fileUploader/src/jobdata/jobdata/utils/_logging.py:208-217 | for every path the name is built from the last piece of the path split at the base: a suffix of the path holding no base, following the last occurrence of the base or the whole path without one; dotted, trimmed as the ":" rule says, plus the function suffix |
| Logging.StackOutsideBase | components/com.fileUploader/src/jobdata/jobdata/utils/_logging.py:208-217 | a path containing neither "site-packages" nor the working directory keeps the whole path, dotted and trimmed, plus the function suffix |
| Logging.StackOfInstalledModule | components/com.fileUploader/src/jobdata/jobdata/utils/_logging.py:208-217 | "…site-packages/pkg/mod.py" logged from `fnc` gives "pkg.mod.fnc" whatever the working directory |
| Logging.PackageModuleName | components/com.fileUploader/src/jobdata/jobdata/utils/_logging.py:213-215 | the relative path "/pkg/mod.py" becomes "pkg.mod" |
| Logging.FormatException | components/com.fileUploader/src/jobdata/jobdata/utils/_logging.py:182-187 | fails exactly for the `(None, None, None)` triple; otherwise "Class: msg line " followed by the canonical decimal of the traceback's line (digits only, no leading zero), 0 without a traceback |
| Logging.Colours | components/com.fileUploader/src/jobdata/jobdata/utils/_logging.py:144-150 | fails exactly for a TTY record at a level without a hue; sets exactly color, gray and reset to the level, gray and reset hues on a TTY, all to "" otherwise |
| Logging.ColouringIsUndone | components/com.fileUploader/src/jobdata/jobdata/utils/_logging.py:144-165 | colouring and then removing the three attributes leaves every other attribute as it was |
| Logging.NamedLevelsColour | components/com.fileUploader/src/jobdata/jobdata/utils/_logging.py:63-83 | a record at any named level can be coloured, on a TTY or not |
| Logging.PresentPrefix | components/com.fileUploader/src/jobdata/jobdata/utils/_logging.py:164-165 | the number of ATTRS present, in order, before the first missing one |
| Logging.ANSIFormatter.constructor | components/com.fileUploader/src/jobdata/jobdata/utils/_logging.py:118-127 | a missing layout or date format defaults to the module's layout and ISO 8601 |
| Logging.ANSIFormatter.Colorize | components/com.fileUploader/src/jobdata/jobdata/utils/_logging.py:129-150 | the record gains exactly the colour attributes and nothing else changes; the KeyError case leaves it untouched |
| Logging.ANSIFormatter.Decolorize | components/com.fileUploader/src/jobdata/jobdata/utils/_logging.py:152-165 | succeeds exactly when all three attributes are present and then removes exactly them; on failure the ones before the missing one are gone |
| Logging.MessageOf | components/com.fileUploader/src/jobdata/jobdata/utils/_logging.py:235-237 | definition; its meaning is in `Logging.ANSIFormatter.Format` |
| Logging.GetMessage | components/com.fileUploader/src/jobdata/jobdata/utils/_logging.py:237 | without arguments the message is itself; a message formatted with arguments used one argument per conversion |
| Logging.ANSIFormatter.FoldException | components/com.fileUploader/src/jobdata/jobdata/utils/_logging.py:234-236 | fails exactly when `formatException` does; with exception information the message becomes the one-liner and the exception information and its text are cleared, the arguments stay; without it nothing changes |
| Logging.ANSIFormatter.StandardFormat | components/com.fileUploader/src/jobdata/jobdata/utils/_logging.py:237 | the standard formatter fails exactly when getting the message with the record's arguments does; on success the record gains `message` and, when the layout names `asctime`, `asctime` from `formatTime` with the date format; the text is the layout rendered from the level name and number, line number, path, function name and the record's attributes, followed by the exception text and the stack information on lines of their own |
| Logging.AppendBlock | components/com.fileUploader/src/jobdata/jobdata/utils/_logging.py:237 | the block follows the text directly when the text ends with a newline, and after an added newline otherwise |
| Logging.StampedKeepsColours | components/com.fileUploader/src/jobdata/jobdata/utils/_logging.py:237-243 | `message` and `asctime` are not colour attributes: stamping keeps the colours and commutes with removing them |
| Logging.ANSIFormatter.Render | components/com.fileUploader/src/jobdata/jobdata/utils/_logging.py:238-243 | fails exactly when `colorize` or getting the message fails; the text is rendered while the colours are set; afterwards the message is stripped and the attributes are the stamped ones without the colours |
| Logging.ANSIFormatter.Format | components/com.fileUploader/src/jobdata/jobdata/utils/_logging.py:220-244 | succeeds exactly when `stack`, `formatException`, `colorize` and getting the message of the folded-in message with the record's arguments do; the text is the layout rendered from the record's fields, its `stack`, its colours, its `message` and `asctime`, followed by the exception text and stack information; afterwards the record keeps `stack`, `message` and `asctime`, loses the colours, holds the stripped message and no exception information |
| Logging.ExceptionTextHasNoPercent | components/com.fileUploader/src/jobdata/jobdata/utils/_logging.py:182-187 | the exception one-liner holds no percent sign when the class name and the exception message hold none |
| Logging.ExceptionMessageWithArgsFails | components/com.fileUploader/src/jobdata/jobdata/utils/_logging.py:234-237 | with exception information and positional arguments the one-liner that replaced the message takes no arguments, so getting the message fails |
| Logging.ANSIFormatter.FormatDroppingArgs | components/com.fileUploader/src/jobdata/jobdata/utils/_logging.py:234-237 | the intended `format`: the one-liner replaces the message together with its arguments, so with exception information it fails only for `stack`, `formatException` or `colorize`, and renders the one-liner as the message |
| PrintfStyle.Convert | components/com.fileUploader/src/jobdata/jobdata/utils/_logging.py:237 | `%s` gives the argument's text; only `s`, `d` and `i` convert |
| PrintfStyle.Interpolate | components/com.fileUploader/src/jobdata/jobdata/utils/_logging.py:237 | definition of `msg % args`; its meaning is in `PrintfStyle.InterpolateUsesEveryArg`, `PrintfStyle.NoPercentKeepsText` and `PrintfStyle.SubstitutesString` |
| PrintfStyle.InterpolateUsesEveryArg | components/com.fileUploader/src/jobdata/jobdata/utils/_logging.py:237 | a successful formatting has exactly one argument per conversion |
| PrintfStyle.NoPercentKeepsText | components/com.fileUploader/src/jobdata/jobdata/utils/_logging.py:237 | text without a percent sign formats to itself without arguments and fails with any |
| PrintfStyle.SubstitutesString | components/com.fileUploader/src/jobdata/jobdata/utils/_logging.py:237 | a single `%s` between texts without percent signs is replaced by the argument's text |
| Logging.ProcessedKwargs | components/com.fileUploader/src/jobdata/jobdata/utils/_logging.py:460-468 | definition; its meaning is in `Logging.ProcessedKwargsMeaning` |
| Logging.ProcessedKwargsMeaning | components/com.fileUploader/src/jobdata/jobdata/utils/_logging.py:460-468 | only `extra` and a given `exc_info` remain; in `extra` a plain keyword wins over the `extra=` mapping, which wins over the adapter's own `extra` |
| Logging.Logger.PopExtra | components/com.fileUploader/src/jobdata/jobdata/utils/_logging.py:460-462 | the copy of the adapter's `extra` updated with the `extra=` mapping, and the keywords without `extra`; fails exactly for a non-mapping `extra=` |
| Logging.Logger.Process | components/com.fileUploader/src/jobdata/jobdata/utils/_logging.py:446-468 | the message is returned unchanged; it fails exactly for a non-mapping `extra=`, and otherwise returns the merge `ProcessedKwargs` while the adapter's `extra` stays as it was |
| Logging.Logger.ProcessAsWritten | components/com.fileUploader/src/jobdata/jobdata/utils/_logging.py:460-468 | the loop as written over the dictionary's key order, each key step failing once the size changed: it fails exactly for a non-mapping `extra=` or when a keyword other than `exc_info` is left after `extra=`, and otherwise returns `ProcessedKwargs` |
| Logging.IterateKeywords | components/com.fileUploader/src/jobdata/jobdata/utils/_logging.py:463-466 | the loop over the key order up to the first iterator step after a pop: the dictionary keeps its size exactly when every key is `exc_info`, and then nothing changes; otherwise a plain keyword was popped |
| Logging.OnlyExcInfoProcessed | components/com.fileUploader/src/jobdata/jobdata/utils/_logging.py:460-468 | when every keyword but `extra=` is `exc_info`, the intended merge only adds the merged `extra` |
| Logging.ProcessAsWrittenRejectsKeywords | components/com.fileUploader/src/jobdata/jobdata/utils/_logging.py:463-466 | one plain keyword makes the code as written fail, while the intended merge moves it into `extra` |
| S3Export.KeyName | components/com.fileUploader/src/jobdata/jobdata/api/stream_manager_s3.py:53 | "ggstreamdata/" followed by a segment without '/', and the whole file name when it has no '/' |
| S3Export.TaskFor | components/com.fileUploader/src/jobdata/jobdata/api/stream_manager_s3.py:112 | the task reads the work-directory URL followed by the whole file name, into the given bucket, under `KeyName` |
| S3Export.TaskForPath | components/com.fileUploader/src/jobdata/jobdata/api/stream_manager_s3.py:53-54 | for "dir/name" the key is the prefix followed by "name" only, while the URL keeps the directory |
| S3Export.StepMessage | components/com.fileUploader/src/jobdata/jobdata/api/stream_manager_s3.py:139-149 | Success, Failure and Canceled set `stop_checking`; InProgress sets `next_seq` to its sequence number plus one; Warning changes nothing |
| S3Export.StepBatch | components/com.fileUploader/src/jobdata/jobdata/api/stream_manager_s3.py:129-149 | definition; its meaning is in `S3Export.StepBatchStops`, `S3Export.StepBatchKeepsNextSeq` and `S3Export.StepBatchNextSeq` |
| S3Export.StepBatchStops | components/com.fileUploader/src/jobdata/jobdata/api/stream_manager_s3.py:129-149 | after a batch `stop_checking` holds if and only if it held before or some message was terminal |
| S3Export.StepBatchKeepsNextSeq | components/com.fileUploader/src/jobdata/jobdata/api/stream_manager_s3.py:142-144 | a batch without InProgress leaves `next_seq` unchanged |
| S3Export.StepBatchNextSeq | components/com.fileUploader/src/jobdata/jobdata/api/stream_manager_s3.py:129-149 | after a batch `next_seq` is one past the last InProgress message's sequence number |
| S3Export.NoBreakAfterTerminal | components/com.fileUploader/src/jobdata/jobdata/api/stream_manager_s3.py:139-149 | a message after a Success in the same batch is still processed |
| S3Export.Poll | components/com.fileUploader/src/jobdata/jobdata/api/stream_manager_s3.py:119-154 | definition; its meaning is in the `S3Export.Poll…` lemmas below and `S3Export.PollExportStatus` |
| S3Export.PollStartsAtZero | components/com.fileUploader/src/jobdata/jobdata/api/stream_manager_s3.py:119-128 | the first read starts at sequence number 0 |
| S3Export.PollReadsAtMostGiven | components/com.fileUploader/src/jobdata/jobdata/api/stream_manager_s3.py:121-154 | one read per outcome consumed; stopping early means `stop_checking` was set or another exception ended it |
| S3Export.PollStopsAfterTerminalBatch | components/com.fileUploader/src/jobdata/jobdata/api/stream_manager_s3.py:119-151 | the batch that holds a terminal status is the last one read, whatever later reads would return |
| S3Export.PollContinuesAfterBatch | components/com.fileUploader/src/jobdata/jobdata/api/stream_manager_s3.py:121-151 | after a batch without a terminal status the next read starts at the `next_seq` the batch left |
| S3Export.PollRetriesAfterStreamManagerError | components/com.fileUploader/src/jobdata/jobdata/api/stream_manager_s3.py:152-154 | after a `StreamManagerException` the loop reads again from the same `next_seq`, and the state is unaffected |
| S3Export.WalkBatch | components/com.fileUploader/src/jobdata/jobdata/api/stream_manager_s3.py:129-149 | the inner loop leaves the loop variables at `StepBatch` of the batch |
| S3Export.PollExportStatus | components/com.fileUploader/src/jobdata/jobdata/api/stream_manager_s3.py:118-158 | the polling loop's final variables, read start numbers and abort flag are those of the fold `Poll` from the initial state |
| FileUpload.JsArray.Pop | components/edgeui/src/edgeui/src/pages/upload/FileUpload.jsx:46 | removes and returns the last element; returns nothing and changes nothing on an empty array |
| FileUpload.DropLast | components/edgeui/src/edgeui/src/pages/upload/FileUpload.jsx:44-48 | a prefix of the array, `count` elements shorter (empty when fewer), the array itself for `count` ≤ 0 |
| FileUpload.RemoveItems | components/edgeui/src/edgeui/src/pages/upload/FileUpload.jsx:44-48 | `item` pops leave the array's prefix without its last `item` elements |
| FileUpload.NonNull | components/edgeui/src/edgeui/src/pages/upload/FileUpload.jsx:58-62 | keeps exactly the non-null files, never lengthens, and is the identity without nulls |
| FileUpload.NonNullAppend | components/edgeui/src/edgeui/src/pages/upload/FileUpload.jsx:58-62 | the filter keeps order: it distributes over concatenation |
| FileUpload.KeptCount | components/edgeui/src/edgeui/src/pages/upload/FileUpload.jsx:54-57 | within the limit every file is kept; beyond it exactly `maxFiles` are, none for a negative limit |
| FileUpload.Selected | components/edgeui/src/edgeui/src/pages/upload/FileUpload.jsx:52-64 | definition; its meaning is in `FileUpload.SelectedBounds` and `FileUpload.SelectedWithinLimit` |
| FileUpload.SelectedBounds | components/edgeui/src/edgeui/src/pages/upload/FileUpload.jsx:52-64 | the state holds at most `maxFiles` files, all from the selection |
| FileUpload.SelectedWithinLimit | components/edgeui/src/edgeui/src/pages/upload/FileUpload.jsx:54-62 | within the limit only nulls are removed; beyond it the dropped files are exactly those past the limit |
| FileUpload.FilesHook.constructor | components/edgeui/src/edgeui/src/pages/upload/FileUpload.jsx:50-51 | the hook starts with an empty state and its `maxFiles` |
| FileUpload.FilesHook.WithBlobs | components/edgeui/src/edgeui/src/pages/upload/FileUpload.jsx:52-65 | the state becomes the first `maxFiles` files without nulls, and the caller's list is unchanged |
| FileUpload.Accepts | components/edgeui/src/edgeui/src/pages/upload/FileUpload.jsx:236 | definition; its meaning is in `FileUpload.AcceptsJsonNames` |
| FileUpload.AcceptsJsonNames | components/edgeui/src/edgeui/src/pages/upload/FileUpload.jsx:236 | a name is accepted if and only if it ends in ".json" or is exactly "json" |
| FileUpload.Page.constructor | components/edgeui/src/edgeui/src/pages/upload/FileUpload.jsx:69-76 | the submit button starts disabled, with no file name, no error and an empty hook; the hook keeps the given `maxFiles`, or 1 when none is given |
| FileUpload.DefaultKeepsFirstFile | components/edgeui/src/edgeui/src/pages/upload/FileUpload.jsx:52-69 | with the default limit the state is the first selected file alone, or empty when there is none or it is null |
| FileUpload.Page.OnChange | components/edgeui/src/edgeui/src/pages/upload/FileUpload.jsx:230-246 | on acceptance it enables the button, stores the selection and shows the name; a rejection only sets the error; an empty selection or a null first entry changes nothing |
| FileUpload.Outcome | components/edgeui/src/edgeui/src/pages/upload/FileUpload.jsx:232-245 | ignored exactly for no file, crashed exactly for a null first entry, accepted exactly when the first name passes the extension test |
| FileUpload.ButtonLabel | components/edgeui/src/edgeui/src/pages/upload/FileUpload.jsx:268-270 | "Start run" if and only if the page title is "new run" |
| JobPage.Normalize | components/edgeui/src/edgeui/src/pages/job/Job.jsx:61-64 | definition; its meaning is in `JobPage.NormalizeLeavesNoSingleQuote`, `JobPage.NormalizeLeavesNoNone` and the `OnlyFirst…Lowercased` lemmas |
| JobPage.DoubleQuotedMapsQuotes | components/edgeui/src/edgeui/src/pages/job/Job.jsx:61 | character by character every `'` becomes `"` and nothing else changes |
| JobPage.NormalizeLeavesNoSingleQuote | components/edgeui/src/edgeui/src/pages/job/Job.jsx:61-64 | the normalised text holds no single quote |
| JobPage.NoneReplacedEverywhere | components/edgeui/src/edgeui/src/pages/job/Job.jsx:64 | after the global replacement no ": None" is left |
| JobPage.NormalizeLeavesNoNone | components/edgeui/src/edgeui/src/pages/job/Job.jsx:61-64 | the normalised text holds no ": None" |
| JobPage.OnlyFirstTrueLowercased | components/edgeui/src/edgeui/src/pages/job/Job.jsx:62 | a "True" after the first one survives the step |
| JobPage.OnlyFirstFalseLowercased | components/edgeui/src/edgeui/src/pages/job/Job.jsx:63 | a "False" after the first one survives the step |
| JobPage.Prop | components/edgeui/src/edgeui/src/pages/job/Job.jsx:74 | a property read fails exactly on `undefined`/`null` and gives an object's member |
| JobPage.ObjectKeys | components/edgeui/src/edgeui/src/pages/job/Job.jsx:74 | `Object.keys` fails exactly on `undefined`/`null` and gives an object's keys in order |
| JobPage.ResurveyKey | components/edgeui/src/edgeui/src/pages/job/Job.jsx:73-75 | "" while the details are the initial empty string |
| JobPage.ResurveyKeyOfRecord | components/edgeui/src/edgeui/src/pages/job/Job.jsx:73-75 | for a record with operating parameters and a message object, the key is the message's first key, `undefined` for an empty message |
| JobPage.ResurveyKeyNeedsOperatingParameters | components/edgeui/src/edgeui/src/pages/job/Job.jsx:74 | a record without "Operating Parameters" aborts the render |
| JobPage.StatusColour | components/edgeui/src/edgeui/src/pages/job/Job.jsx:296 | green if and only if the key is "Job continues", red otherwise (also the colour at lines 303, 395 and 411) |
| JobPage.Step | components/edgeui/src/edgeui/src/pages/job/Job.jsx:77-121 | definition; its meaning is in `JobPage.StepEffects`, `JobPage.StepKeepsConsistent` and the scenario lemmas below |
| JobPage.StepEffects | components/edgeui/src/edgeui/src/pages/job/Job.jsx:77-121 | a handler has effects if and only if the second question is pending and answered: accept ends the run, cancel ends the job; only an accept of the first question makes it pending |
| JobPage.StepKeepsConsistent | components/edgeui/src/edgeui/src/pages/job/Job.jsx:77-121 | the second question is only ever pending while the dialog is shown |
| JobPage.AcceptTwiceEndsRun | components/edgeui/src/edgeui/src/pages/job/Job.jsx:106-121 | open, accept, accept ends the run and leads to an upload page labelled "Start run" |
| JobPage.AcceptThenCancelEndsJob | components/edgeui/src/edgeui/src/pages/job/Job.jsx:86-121 | open, accept, cancel ends the job with the current details |
| JobPage.CloseForgetsAnswer | components/edgeui/src/edgeui/src/pages/job/Job.jsx:77-104 | closing after the first answer forgets it: reopening and cancelling only closes the dialog |
| JobPage.DialogTitle | components/edgeui/src/edgeui/src/pages/job/Job.jsx:145-147 | definition; its meaning is in `JobPage.LabelsMatchEffects` |
| JobPage.AcceptLabel | components/edgeui/src/edgeui/src/pages/job/Job.jsx:171 | definition; its meaning is in `JobPage.LabelsMatchEffects` |
| JobPage.CancelLabel | components/edgeui/src/edgeui/src/pages/job/Job.jsx:186 | definition; its meaning is in `JobPage.LabelsMatchEffects` |
| JobPage.LabelsMatchEffects | components/edgeui/src/edgeui/src/pages/job/Job.jsx:145-186 | the question "Do you want to start another run?" is asked, and "Yes, Start another run" shown, exactly when accepting ends the run; "No, end job" is shown exactly when cancelling ends the job |
| JobPage.Page.constructor | components/edgeui/src/edgeui/src/pages/job/Job.jsx:50-53 | the dialog starts closed with the first question, and the details start as "" |
| JobPage.Page.OnIpcResponse | components/edgeui/src/edgeui/src/pages/job/Job.jsx:60-67 | the details become the parse of the normalised text, and stay when it does not parse |
| JobPage.Page.OpenPopupHandler | components/edgeui/src/edgeui/src/pages/job/Job.jsx:77-80 | the dialog state becomes that of `Step` on OpenPopup |
| JobPage.Page.HandleClose | components/edgeui/src/edgeui/src/pages/job/Job.jsx:81-84 | the dialog state becomes that of `Step` on Close |
| JobPage.Page.HandleCancel | components/edgeui/src/edgeui/src/pages/job/Job.jsx:86-104 | state and emitted effects follow `Step` on Cancel |
| JobPage.Page.HandleAccept | components/edgeui/src/edgeui/src/pages/job/Job.jsx:106-121 | state and emitted effects follow `Step` on Accept |
| Publisher.OperatingParameters | components/com.example.Publisher/src/dummy_publisher.py:46-57 | exactly the keys quality_control, tool_status, message, holding the drawn value, the tool status and the message |
| Publisher.SensorData | components/com.example.Publisher/src/dummy_publisher.py:58-67 | exactly the four sensor keys, the power curve as the decimal text of the draw |
| Publisher.RecordOf | components/com.example.Publisher/src/dummy_publisher.py:69-73 | exactly the keys timestamp, Operating Parameters and Sensor Data, holding their parts |
| Publisher.GenerateMessage | components/com.example.Publisher/src/dummy_publisher.py:41-74 | fails exactly for an empty quality-control or tool-status list or a missing message; the tool status is the first one, the message is `msg[0]` for "Passed" and `msg[1]` otherwise |
| Publisher.PowerCurveDigits | components/com.example.Publisher/src/dummy_publisher.py:58 | the power curve is three decimal digits denoting a value in [300, 400] |
| Publisher.ComponentRecord | components/com.example.Publisher/src/dummy_publisher.py:78-98 | with the component's lists a record is always produced, its tool status is "running", and its message is the "Job continues" one if and only if "Passed" was drawn |
| Publisher.PublishedRecordColour | components/com.example.Publisher/src/dummy_publisher.py:78-98 | the job page colours a published record green if and only if "Passed" was drawn |
| Strings.SplitLastPiece | components/com.fileUploader/src/jobdata/jobdata/api/stream_manager_s3.py:53 | `split(sep)[-1]` holds no separator, is the whole text without one, and otherwise follows an occurrence of it |
| Strings.ReplaceFirstReplacesFirst | components/edgeui/src/edgeui/src/pages/job/Job.jsx:62-63 | `replace` with a string pattern keeps the text when the pattern is absent, and otherwise replaces its first occurrence only |

## Left out

- Windows paths: `stack` strips the drive with `os.path.splitdrive` when `os.name == "nt"`. The model is POSIX, with the separator as a parameter.
- `os.getcwd()`, `isatty` and the path separator are parameters.
- Of the standard `logging.Formatter`, `StandardFormat` models the message formatting, the `message` and `asctime` attributes and the trailing exception text and stack information. The %-style substitution of the layout is the parameter `render`, taken as total: a layout naming a missing attribute or converting one of the wrong type is not modelled. The parameter `formatTime` formats the creation time with the date format. The ANSI-escape regular-expression substitution is the parameter `strip`.
- The standard formatter's traceback rendering of a record that still holds exception information is not modelled: `format` always clears it before, and `StandardFormat` requires a record without it.
- PrintfStyle.Interpolate: only the conversions `%%`, `%s`, `%d` and `%i` are modelled, with integer or string arguments. Flags, width, precision, mapping keys and the other conversion characters are refused here, whereas Python accepts them. A single mapping argument is not modelled.
- Logging.GetMessage: the message is a string. The `str()` of another message object is not modelled.
- The stream handlers, the rotating file handler, the TTY inspector, `basicConfig`, `getLogger` and the `log` dispatch of `ANSIRequestHandler` are wrappers over the logging library and stream I/O. They are not part of this model.
- `Logger._log` itself is not modelled: the creation of the record, and `extra` entries overwriting record attributes. `CallFor` stops at the arguments it passes.
- `uri_to_iri` of the request path is not modelled: the path is taken already converted.
- Logging.Logger.Process: `dict.update` also accepts an iterable of key/value pairs. The model treats any non-mapping `extra=` value as the failure case.
- Strings.ToLower: it lowercases ASCII letters only, whereas Python's `lower()` covers all of Unicode. That is enough for the level names and protocol strings here.
- The `StreamManagerClient` calls are foreign SDK calls. They cover stream deletion and creation, the export definition and `append_message`. Each `read_messages` result is an input, and so is the deserialisation of each status message.
- `time.sleep` and the logging calls in `sendtoS3` are not modelled.
- S3Export.StepMessage: a Failure or Canceled status whose `message` is None makes the string concatenation of the log line raise TypeError. The outer handler catches it and the upload is abandoned. The model takes the message as always present, so that status stops the loop cleanly.
- S3Export.PollExportStatus: it consumes a finite sequence of read outcomes. It also stops when they are used up, whereas the source blocks or polls forever.
- The outer `asyncio.TimeoutError`/`Exception` handlers of `sendtoS3` are merged into one abort flag, because both only log.
- React state hooks are modelled as fields updated in place, without re-render timing.
- `handleSubmission`, `fetch`, `localStorage`, navigation after upload and the error timeout are I/O and framework calls. They are not modelled.
- The file input's `multiple` attribute (set when `maxFiles` exceeds 1) only affects rendering and the browser's picker. It is not modelled.
- FileUpload.FilesHook.WithBlobs: `maxFiles` is an integer. Non-integer JavaScript numbers and `NaN` are not modelled.
- `JSON.parse` is passed to `OnIpcResponse` as a parameter.
- JSON numbers and arrays are not modelled. Nor are duplicate object keys, or the way `Object.keys` orders integer-like keys first.
- The Python `str()` of the record and the websocket relay that carries it from the publisher to the page are not modelled. `PublishedRecordColour` takes the record as built.
- The socket events themselves (`end_run`, `end_job`, `disconnectSocket`) are recorded as effects only, and navigation is recorded as an effect that leaves the page.
- The graph dialog state of the job page is not modelled.
- `random.choice`, `randint`, `random.uniform` with `round`, and `datetime.now()` are the inputs of `Draws`. The float readings arrive already formatted.
- The `print` at the start of `generate_message` is console output. It is not modelled.
- `publish_to_topic` and the publishing loop with its `sleep` are IPC SDK calls and timing. They are not modelled.

## Findings

| source | as written | input that shows it | evidently intended | confidence | as-written member | corrected member |
|---|---|---|---|---|---|---|
| components/com.fileUploader/src/jobdata/jobdata/utils/_logging.py:463-466 | `process` pops each keyword from `kwargs` while iterating over `kwargs.keys()`, so CPython raises RuntimeError (dictionary changed size during iteration) as soon as one keyword other than `exc_info` is left | a call of the inherited `LoggerAdapter.log`, `log(20, "x", user="alice")`, which passes `kwargs = {"user": "alice"}` to `process` | iterate over a snapshot of the keys, moving every keyword except `exc_info` into `extra` | not executed | Logging.Logger.ProcessAsWritten, Logging.ProcessAsWrittenRejectsKeywords | Logging.Logger.Process |
| components/com.fileUploader/src/jobdata/jobdata/utils/_logging.py:234-237 | `format` replaces `record.msg` with the exception one-liner but keeps `record.args`, so the standard formatter's `getMessage` applies `%` with arguments to a text without conversions and raises TypeError (not all arguments converted) | `log.exception("upload of %s failed", name)` inside an `except` block, the exception's class name and message holding no `%` | clear `record.args` together with the message, so the one-liner is logged | not executed | Logging.ANSIFormatter.Format, Logging.ExceptionMessageWithArgsFails | Logging.ANSIFormatter.FormatDroppingArgs |
