# pinme-deploy-mcp, modelled in Dafny

The system is a small MCP server. It offers three tools around the `pinme`
command-line uploader:

- `deploy_to_pinme` uploads a file or a directory. With no path given, it
  looks for a conventional build-output directory under the working directory.
- `check_pinme_status` sends a HEAD request for a CID or an ENS URL.
- `list_deployments` runs `pinme list` and turns its output into a numbered
  list.

This project models the server file `src/index.ts`:

- build-directory detection and the choice of the path to deploy;
- the checks on that path;
- extraction of the preview URL and the IPFS CID from the upload output;
- the ENS lookup in the `pinme list` output;
- the listing parser and formatter;
- the way a failed `pinme` run is classified as "CLI missing" or as a real error;
- the status check;
- the tool dispatcher, which turns thrown errors into error replies.

The outside world is passed in as values. Nothing is performed.

- The file system is a `map` from resolved paths to nodes: a file, a directory
  with its number of entries, or something else.
- Running a command is a function from the command line to its result: the
  captured `stdout`/`stderr`, or an error with its `code` and `message`.
- A HEAD request is a function from a URL to what the request gives: a
  response with its `ok` flag, or a failure message.

A reply's text is modelled as the sequence of lines the handler appends, each
followed by a newline (`Text.Unlines`). Because of this, "a line is shown" is a
statement about membership in the sequence. A deploy reply then ends with the
raw command output.

The regular expressions are written out as matchers with the semantics of
JavaScript regular expressions. These details affect the result:

- The match is the leftmost one.
- `\s` is the whitespace set that `trim()` removes.
- In `Label:\s*(.+)` the greedy `\s*` may cross line breaks. When only
  whitespace follows the label, the match backtracks so that the captured group
  is the last whitespace character that is not a line break.
- The numbered-line pattern `^\s*\d+\.\s*(.+?)\s*$`, with the multi-line flag,
  captures the name from its first to its last visible character on its line.
- `split(/-{70,}/)` cuts at each maximal run of at least 70 dashes.

As in JavaScript, an empty string argument counts as absent.

Modules:

- `Wrappers` holds `Option` and `Result`.
- `Text` holds character classes, scanning, `Trim` and `Unlines`.
- `Patterns` holds the regular expressions and the leftmost search.
- `BuildDir` holds detection and the deploy target.
- `UploadOutput` holds the preview URL, the CID and the ENS lookup.
- `Listing` holds sections, records, totals and the reply.
- `Handlers` holds the three handlers and the dispatcher.

Detection checks the candidates in the order `build`, `dist`, `out`, `.next`,
`public`, `output`, `.output`, `site`. Its explicit preference for `build` and
then `dist` therefore always picks the first qualifying candidate in list order
(`BuildDir.DetectedIsFirstQualifying`, `BuildDir.DetectedPriority`).

The listing parser skips blank sections before parsing them. A blank
section could never yield a record anyway (`Listing.BlankSectionHasNoRecord`).

## Model

| member | source | states |
|---|---|---|
| `BuildDir.DetectBuildDirectory` | src/index.ts:137-171 | the detection loop collects the qualifying candidates in list order; the result is the detection function of the file system and working directory |
| `BuildDir.KeptMembers` | src/index.ts:140-155 | a name is collected iff it is a candidate that exists, is a directory and has at least one entry |
| `BuildDir.Choose` | src/index.ts:157-170 | nothing is detected exactly when nothing was collected; otherwise the choice is one of the collected names |
| `BuildDir.DetectedIsFirstQualifying` | src/index.ts:157-170 | if candidate i qualifies and no earlier candidate does, detection yields candidate i resolved under the working directory |
| `BuildDir.DetectedPriority` | src/index.ts:161-167 | a qualifying `build` always wins; otherwise a qualifying `dist` wins |
| `BuildDir.DetectedNoneIff` | src/index.ts:157-159 | detection yields nothing iff no candidate qualifies |
| `BuildDir.DeployTargetChoice` | src/index.ts:173-192 | a non-empty path argument wins and is not auto-detected; auto-detected holds iff no path was given and some candidate qualifies; with neither, the working directory is deployed; with `build` present and no path, `build` is deployed |
| `BuildDir.CheckTarget` | src/index.ts:194-213 | the path passes iff it exists and is a file or a non-empty directory; the result says whether it is a file; every failure message contains the path |
| `Text.Trim` | src/index.ts:386 | the result has no whitespace at either end and is the input less whitespace at both ends; it is empty iff the input is all whitespace |
| `Patterns.Match` | src/index.ts:228-231 | no match iff the pattern matches at no position; otherwise the result is the group at the leftmost matching position, is a substring of the text and has the pattern's shape |
| `Patterns.Search` | src/index.ts:228-231 | the position found matches and no earlier position does; nothing is found iff no position from the start matches |
| `UploadOutput.ExtractPreviewUrl` | src/index.ts:227-228 | the URL is absent iff the preview prefix followed by a visible character never occurs; otherwise it is the prefix and a maximal run of non-whitespace, taken at its leftmost occurrence |
| `UploadOutput.ExtractCid` | src/index.ts:230-231 | absent iff neither a v1 (`baf` + 56 alphanumerics) nor a v0 (`Qm` + 44) CID occurs; a v1 CID, when any occurs, beats every v0 CID; the result is a substring of the output, of length 59 starting `baf` or of length 46 starting `Qm` |
| `UploadOutput.IndexOf` | src/index.ts:250-251 | the index found is the first occurrence; none exactly when the text does not contain the needle |
| `UploadOutput.LookupEnsUrl` | src/index.ts:250-256 | the result is u iff the listing contains the CID and u is the group of the leftmost ENS-URL match in the listing from the CID's first occurrence on; it is then a substring of the listing of the form `https://<hex>.pinit.eth.limo` |
| `Listing.Sections` | src/index.ts:384 | splitting yields at least one section |
| `Listing.SectionsRejoin` | src/index.ts:384 | the sections, joined with the cut-out dash runs (each at least 70 long), give back the listing text |
| `Listing.SectionsHaveNoSeparator` | src/index.ts:384 | no section contains a run of 70 dashes |
| `Listing.SectionsMaximal` | src/index.ts:384 | each cut takes a whole dash run: a section before a cut does not end with a dash, a section after a cut does not start with one, and a section between two cuts is not empty |
| `Patterns.NumberedSpan` | src/index.ts:388 | the group of `\s*(.+?)\s*$` tried at a position lies after it and holds no line terminator |
| `Patterns.NumberedSpanShape` | src/index.ts:388 | the group is missing iff only line terminators are left; it starts after white space only; when it starts with white space, nothing but white space is left and the group is the last character that is not a line terminator |
| `Patterns.NumberedSpanLazy` | src/index.ts:388 | a group starting with a visible character ends with a visible character, and only white space follows it up to the end of its line |
| `Patterns.AfterOrdinal` | src/index.ts:388 | `\s*\d+\.` tried at a position ends after it; `Patterns.AfterOrdinalShape` and `Patterns.AfterOrdinalFound` together say exactly when it is found |
| `Patterns.AfterOrdinalShape` | src/index.ts:388 | `\s*\d+\.` ends just after a dot, preceded by a run of white space and then at least one digit |
| `Patterns.AfterOrdinalFound` | src/index.ts:388 | every prefix of white space, at least one digit and a dot is recognised by `\s*\d+\.`, and the match ends just after the dot |
| `Patterns.FieldSpan` | src/index.ts:389-395 | the group of `\s*(.+)` tried at a position lies after it and holds no line terminator; it is missing iff only line terminators are left |
| `Patterns.FieldSpanShape` | src/index.ts:389-395 | the group starts after white space only and runs to the end of its line; when it starts with white space, nothing but white space is left and the group is the last character that is not a line terminator |
| `Listing.CapturedOr` | src/index.ts:398-406 | the field is the default when the pattern does not match or its group is all white space; otherwise it is the trimmed group of the leftmost match; a value other than the default is a trimmed, non-empty, single-line piece of the section |
| `Listing.ParseSection` | src/index.ts:388-408 | a record is produced iff the numbered name line or the `IPFS CID:` field matched; each of its eight fields is the trimmed group of its own pattern's leftmost match, or the default (`未知` for the name, empty otherwise) when that pattern does not match or captures only white space |
| `Listing.ParseSectionExample` | src/index.ts:388-406 | the section `1. demo`, `IPFS CID: Qm7`, `Size: 10 KB` parses to the record with name `demo`, CID `Qm7`, size `10 KB` and every other field empty |
| `Listing.ParseFoundFields` | src/index.ts:388-406 | when only the name line, the CID and the size match, the record holds their trimmed groups and every other field is empty |
| `Listing.SectionRecords` | src/index.ts:386-408 | a section contributes at most one record; it contributes one iff it is not all white space and the name line or the CID field matches, and that record is the section's parsed record |
| `Listing.SectionRecordsYield` | src/index.ts:386-408 | a section contributes the record d iff it is not all white space and parses to d |
| `Listing.BlankSectionHasNoRecord` | src/index.ts:386 | a whitespace-only section matches neither the name line nor the CID field, so the blank check drops no record |
| `Listing.ParseDeployments` | src/index.ts:385-409 | the parsing loop collects exactly the records of the sections, in section order |
| `Listing.RecordsAppend` | src/index.ts:385-409 | records keep section order: the records of two runs of sections are the records of the first followed by those of the second |
| `Listing.RecordsMembers` | src/index.ts:385-409 | a record is in the parsed list iff some section is not all white space and parses to it |
| `Listing.RecordsBound` | src/index.ts:385-409 | there are never more records than sections |
| `Listing.ParseTotals` | src/index.ts:411-414 | each total is missing iff its pattern matches nowhere in the text, and otherwise is the group of its leftmost match; the upload and file counts are digit runs from the text, and the size is a single-line piece of the text |
| `Listing.FormatRecord` | src/index.ts:418-428 | the block of one record: its numbered name line, one line for each non-empty field in a fixed order, then a blank line |
| `Listing.FormatBlocks` | src/index.ts:418-429 | the loop over the records writes the block of each record in order, numbered from 1 |
| `Listing.FormatTotals` | src/index.ts:431-436 | the totals lines, present only when the upload count was found |
| `Listing.FormatListing` | src/index.ts:416-441 | the reply lines are the title, the numbered blocks of all records in order, the totals lines and, for no records, the empty-state note |
| `Listing.BlockLines` | src/index.ts:418-428 | every line of a record block is blank, starts with a digit or starts with three spaces |
| `Listing.ListingEmptyNote` | src/index.ts:439-441 | the empty-state note appears iff there are no records |
| `Listing.ListingTotals` | src/index.ts:431-436 | the totals heading appears iff `Total Uploads:` was found; the file-count line for f appears iff it was found too and the file total is f; likewise the size line |
| `Handlers.OutputOf` | src/index.ts:225 | the output is stdout when that is non-empty, and otherwise stderr; it is empty iff both are |
| `Handlers.IsCliMissing` | src/index.ts:274 | a failed run counts as a missing CLI when the error code is `ENOENT`, or when the message contains the upload command line or `pinme list`; the same test classifies the listing failure at src/index.ts:452 |
| `Handlers.Respond` | src/index.ts:118-129 | a thrown error becomes an error reply whose text is `错误: ` and the message; a returned reply passes through unchanged |
| `Handlers.HandleDeploy` | src/index.ts:173-292 | the deploy handler returns or throws exactly the deploy outcome of its path argument, working directory, file system and command results |
| `Handlers.WriteReport` | src/index.ts:233-262 | the report lines of a successful upload, built with the preview URL, CID and ENS URL extracted from the output |
| `Handlers.WriteCidLines` | src/index.ts:243-260 | the CID line, then the ENS line when a successful `pinme list` shows one for the CID; a failed listing adds nothing |
| `Handlers.EnsFor` | src/index.ts:246-259 | for a successful listing, the result is u iff u is the group of the leftmost ENS-URL match from the CID's first occurrence on; a failed listing gives none; a result is a piece of the listing of the ENS form |
| `Handlers.DeployOutcomes` | src/index.ts:194-292 | the handler never returns an error reply itself; a failed path check throws a message naming the path; a failed upload returns guidance naming the path iff the CLI counts as missing, and otherwise rethrows its message; a successful upload's reply ends with the command output |
| `Handlers.DeployCallIsError` | src/index.ts:104-129 | a deploy call ends in an error reply iff the path check failed or the upload failed without counting as a missing CLI |
| `Handlers.ReportAutoLine` | src/index.ts:234-236 | the auto-detection line is shown iff the path was detected |
| `Handlers.ReportPreviewLine` | src/index.ts:239-241 | a preview line for u is shown iff the preview URL found is u |
| `Handlers.ReportCidLine` | src/index.ts:243-244 | a CID line for c is shown iff the CID found is c |
| `Handlers.ReportEnsLine` | src/index.ts:252-255 | an ENS line for u is shown iff a CID was found and the ENS URL found for it is u |
| `Handlers.UploadReportLines` | src/index.ts:227-260 | in an upload report, the CID and preview lines show exactly what was extracted from the output; the ENS line for u is shown iff a CID was extracted, `pinme list` succeeded and u is the leftmost ENS URL in its output from the CID's first occurrence on |
| `Handlers.CheckStatus` | src/index.ts:294-354 | with neither a CID nor an ENS URL, the reply is the prompt and is not an error; otherwise it is an error iff the request failed; a reached target gives the status lines for its `ok` flag, a failed request gives `检查状态时出错: ` and the failure message |
| `Handlers.StatusVerdict` | src/index.ts:321-326 | the status lines show `📊 状态: ✅ 可访问` iff the response was ok, and `📊 状态: ❌ 不可访问` iff it was not |
| `Handlers.CheckStatusProbesOneUrl` | src/index.ts:297-321 | the reply depends on the probe only through the one URL requested, and on none when there is nothing to check; the URL is the ENS URL when given, else the gateway URL `https://ipfs.io/ipfs/` of the CID |
| `Handlers.StatusReportLines` | src/index.ts:324-333 | the gateway line for c is shown iff the CID c was given; the ENS line for e is shown iff the ENS URL e was given |
| `Handlers.HandleListDeployments` | src/index.ts:356-475 | the list handler's reply is the list reply to the `pinme list` run |
| `Handlers.ListReplyOutcomes` | src/index.ts:451-474 | the list reply is an error iff the run failed without counting as a missing CLI; the missing-CLI guidance names `pinme list`; a listing with no records shows the empty-state note |
| `Handlers.CallTool` | src/index.ts:104-129 | each known tool name runs its handler, with thrown errors turned into error replies; any other name gives the error reply `错误: 未知的工具: ` followed by the name |

## Left out

- The MCP wiring is not modelled: the server object, the tool list, the stdio transport, the SIGINT handler and logging. Neither is `bin/pinme-deploy-mcp.js`, which is not part of this model.
- Real I/O is replaced by input values: `existsSync`, `stat`, `readdir`, `exec` and `fetch`. Each command or request runs at most once per call and its result is a given value.
- A `stat` or `readdir` that throws is not modelled. During detection the source ignores such an error; during deploy it propagates.
- `path.resolve` does not normalise in the model. An absolute path is kept as it is; a relative one is joined to the working directory with `/`. Any `.`/`..` collapsing and trailing-slash handling are left out.
- The `cwd` option of the upload command is not modelled. The upload is the function of the command line alone.
- The reply is a sequence of lines, not one string. The text is derived by `Text.Unlines`, and a deploy reply is followed by the raw output. The exact wording of each message is kept.
- Arguments that are not strings are not modelled, and neither are missing argument objects. Neither is an error value without a `message`, which makes `error.message.includes` throw in the source.
- `Listing.Sections`: the contract states only that there is at least one section. The content guarantee lives in `Listing.SectionsRejoin`, `Listing.SectionsHaveNoSeparator` and `Listing.SectionsMaximal`.
- `Handlers.IsCliMissing`: the contract states the cases that count as a missing CLI, in terms of the two command lines. The full condition (the code `ENOENT`, or any message containing `pinme`) is the function's definition and is not repeated as a contract.
- `Listing.ListingEmptyNote` is stated about the reply lines. A record whose name or field happens to contain the note text makes it a substring of the text even when there are records, so the substring form holds in one direction only (`Handlers.ListReplyOutcomes`).
