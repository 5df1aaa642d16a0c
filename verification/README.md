# LexCorp verification

LexCorp keeps documents in custody: it hands out watermarked copies, takes revisions back, keeps an
approval protocol and an identity protocol around them, and mirrors both on a chain. This project models
the parts of the backend where a mistake would be silent and proves what they are for.

Each module follows one part of the program. A module gives the state as a datatype, what one operation
does to it as a function (`Step`, `Watermark`, `Strip`, ...), the invariants every step keeps, and what
follows for every run. Where the program changes things in place there is a class with the same fields,
whose methods are proved equal to those functions, loop by loop. To check the project, run
`dafny verify dfyconfig.toml` in this directory.

- `XlsxPackage.dfy`: the header, footer, control sheet and hidden property of an XLSX copy, put on and taken
  off. Part names are lists of segments, XML parts are lists of the elements the code looks at.
- `XlsxReturned.dfy`: what is said and done about any workbook that comes back, changed in any way.
- `PdfLayers.dfy`: overlays, tagged streams and control pages of a PDF. Pages may share a resource object and
  resources may share an XObject dictionary, so both are heap cells with numbers.
- `PixelMark.dfy`, `ImageBlend.dfy`: the invisible copy mark in an image's footer band, and the
  semi-transparent marking with its reversal.
- `TextLines.dfy`, `WatermarkText.dfy`: the watermark lines, the record of them, and the check of a returned copy.
- `Lineage.dfy`: proposals, revisions, decisions, the OBSOLETE label under chain confirmation, custody, maintenance
  and revocation, the history of a version and the listing of a lineage.
- `Downloads.dfy`, `ViewLimits.dfy`: requests as processes that interleave at the statements where the program
  uses a conditional UPDATE under a row lock, with revocation, expiry and failure in between.
- `Sessions.dfy`: sessions, login factors, step-up tokens and time steps of one identity.
- `Indexer.dfy`: the event indexer's cursor through failed windows, crashes, restarts and replaced chains.
- `Alerts.dfy`: alert grouping and the escalation chain.
- `ChainRoles.dfy`, `KeyRotation.dfy`: on-chain roles converging with the registry, and key rotation.

Things outside the program become parameters: the time, the client address, the code a TOTP secret yields, the
outcome of a transaction, which kinds of log cannot be fetched. Contents stand for their hashes. A handler is
one atomic step, except where the program itself uses a conditional UPDATE.

## Where the program does not do what is said of it

Each of these is a lemma with the input, next to the exact condition under which the promise holds.

- A returned copy that nobody changed can be refused: text after the control block that adds a label the block
  does not have (for example `Viewed by: ...` on a download) is read as part of it. `UnmodifiedCopyAccepted`
  accepts exactly when no such line follows; with `LaterLabelRefuses` one line `Viewed by: ...` is enough for any copy,
  and `RefusedCopy` is one such text in full.
- A version that a later one has replaced does not stay marked OBSOLETE. Confirming a version on the chain writes MINTED or
  ANCHORED over whatever label is there (backend/app/api/assets.py:2549-2579), custody writes any text, maintenance
  and an indexed revocation write their own. `ConfirmedAgain` is the run: version 1 is confirmed, version 2 approved, and
  until version 2 is anchored a second confirmation of version 1 succeeds and takes its mark off. `LabelExact` is the
  condition for every run whatsoever: a row's label is right if and only if the last operation that labelled it, unless
  an approval came after it, wrote OBSOLETE exactly when a later version was in force. `ConfirmMisleads`: a confirmation
  can do harm exactly while the token still carries a superseded version. `StaleLabelStays`: a mark once taken off is not
  put back by anything but an assignment that says OBSOLETE.
- The indexer's cursor does not always stand for "everything up to here is recorded". After a poll whose window
  completes it does if and only if no unrecorded log of the window lost its row (`PollExact`; a row that cannot be
  committed is skipped and the cursor moves on). A catch-up that starts beyond the block after the cursor, or ends
  beyond the head, leaves a hole (`UnsafeCatchUpLoses`, whose condition is the exact complement of the one `NoGaps`
  needs). A chain replaced under the running process is not noticed: every later poll leaves the logs at and below the
  cursor unrecorded (`LiveReplacementLeavesGap`). A restart recovers from that as long as no cursor was saved on the
  new chain (`RestartRecovers`; `RestartExact` is the condition for any restart); but the polling loop saves its cursor
  with the hash of the new chain after each window (backend/app/indexer/event_indexer.py:521-524), and from then on no
  restart brings a log back (`SavedCursorKeepsGap`), only a catch-up that starts at or below it. The requirements matrix
  also says the indexer never rewrites the registry; a confirmed transfer does set the registered owner, and the model
  follows the code.
- The pixel mark survives any disturbance of the block means below 7/4 and can be misread at 7/4
  (`NoiseBoundSharp`). The un-blending of an image is within 1 up to an overlay alpha of 170 and not at 171
  (`UnblendOffByTwo`); the program draws with 64.
- Stripping an XLSX copy restores a sheet exactly when its header and footer stood alone and where the schema
  puts them (`NormalIffInPlace`, and `RestoredExactly` for the whole round); otherwise the sheet comes back in that
  normal form.

## Model

| member | source | states |
|---|---|---|
| XlsxPackage.RoundTrip | backend/app/services/watermark.py:643-750 | for any tidy workbook, issuing, marking, stripping and unmarking yields no finding, the same parts in the same order (content types first), every sheet in normal form, every other part as it was, at most a png default added |
| XlsxPackage.RestoredExactly | backend/app/services/watermark_strip.py:364-384 | after issuing, marking, stripping and unmarking, every part but the content types is exactly the original if and only if each headerFooter was alone and in place, and the whole package is if and only if png was declared besides |
| XlsxPackage.OrdinaryIsTidy | backend/app/services/watermark.py:643-684 | a plain workbook of one sheet with any content meets what the round needs |
| XlsxPackage.NormalIffInPlace | backend/app/services/watermark.py:614-627 | one sheet survives the round unchanged if and only if it has at most one headerFooter, right before the first child that must follow it |
| XlsxPackage.SheetRoundTrip | backend/app/services/watermark_strip.py:369-384 | after our headerFooter is set the check finds exactly ours, and restoring gives the sheet's normal form |
| XlsxPackage.ReportExact | backend/app/services/watermark_strip.py:300-387 | for any returned workbook with distinct sheet parts: no findings if and only if control lines and QR image match, every issued sheet is there, and each carries the issued header and footer |
| XlsxPackage.StripIssued | backend/app/services/watermark_strip.py:287-394 | stripping an issued copy reports nothing and leaves the original's parts plus the custom part |
| XlsxPackage.MarkRemoved | backend/app/services/hidden_mark.py:145-171 | the hidden property comes off, with part, content type and relationship if the copy created them |
| XlsxPackage.NamesRoundTrip | backend/app/services/hidden_mark.py:174-179 | the archive lists what it listed before, content types first |
| XlsxPackage.ControlReached | backend/app/services/watermark_strip.py:269-332 | following relationships from the control sheet reaches exactly the five parts the copy added |
| XlsxPackage.ControlReadsBack | backend/app/services/watermark_strip.py:306-314 | the control lines read back are those written, whatever the shared strings |
| XlsxPackage.Fresh | backend/app/services/watermark.py:671-680 | padding a title or relationship id ends with one that is not taken, all shorter candidates being taken |
| XlsxPackage.FreshIndex | backend/app/services/watermark.py:681-684 | the number found is the first whose control sheet part does not exist |
| XlsxPackage.SheetIdFresh | backend/app/services/watermark.py:675 | the control sheet's id is above every other sheet's |
| XlsxPackage.PidFresh | backend/app/services/hidden_mark.py:136-137 | the hidden property's number is above every other and not below 2 |
| XlsxPackage.ControlNamesDiffer | backend/app/services/watermark.py:682-684 | different numbers spell different file names |
| XlsxPackage.NamesFollowSheets | backend/app/services/watermark_strip.py:337-352 | stripping any returned workbook in which one sheet bears the control name: its entry goes, the other sheets keep their order, names local to it go, all others keep order and name, one local to another sheet is local to that same sheet in the result, and one without a position keeps having none |
| XlsxPackage.Archive.SetHeaderFooter | backend/app/services/watermark.py:614-627 | the loops remove every headerFooter and insert one before the first child that must follow |
| XlsxPackage.Archive.Issue | backend/app/services/watermark.py:643-750 | watermarking the archive in place gives the specified package and manifest |
| XlsxPackage.Archive.FreshName | backend/app/services/watermark.py:671-680 | the padding loop terminates on any finite set of names |
| XlsxPackage.Archive.FreshNumber | backend/app/services/watermark.py:681-683 | the numbering loop terminates on the first free number |
| XlsxPackage.Archive.EmbedMark | backend/app/services/hidden_mark.py:114-142 | embeds the property in place, or fails and changes nothing when all 999 ids are taken |
| XlsxPackage.FreeNumber | backend/app/services/hidden_mark.py:130-131 | the first free id of 1 to 999, or none exactly when all are used |
| XlsxPackage.Archive.TakeMark | backend/app/services/hidden_mark.py:145-171 | removal in place equals its specification |
| XlsxPackage.Archive.StripCopy | backend/app/services/watermark_strip.py:287-394 | checking and stripping in place gives the specified package and findings |
| XlsxPackage.Archive.SheetsByName | backend/app/services/watermark.py:630-640 | the dictionary of sheet parts, a later sheet of the same name replacing the earlier |
| XlsxPackage.Archive.ShiftNames | backend/app/services/watermark_strip.py:344-351 | names local to the removed sheet go, later positions move up by one |
| XlsxReturned.FindingsExact | backend/app/services/watermark_strip.py:300-387 | a finding about any returned workbook with distinct sheet parts is reported if and only if it is justified: the control sheet is missing or not as issued, a sheet came back without the issued header and footer, or a sheet's issued name is gone |
| XlsxReturned.IntactExact | backend/app/services/watermark_strip.py:306-334 | the control sheet counts as unchanged if and only if its cells that are not empty read the issued lines in order and its drawings lead to exactly one image, the issued one |
| XlsxReturned.ReachExact | backend/app/services/watermark_strip.py:315-332 | what the control sheet of any workbook reaches: its relationships, the drawings they name with theirs, and the images those name, in order |
| XlsxReturned.LeftExact | backend/app/services/watermark_strip.py:335-394 | stripping any returned workbook removes exactly the parts its control sheet reaches, and every part that is no sheet and does not register the control sheet stays as it is |
| XlsxReturned.TypesLeft | backend/app/services/watermark_strip.py:358-362 | the content types lose exactly the overrides of the parts that go, however many slashes they are written with |
| XlsxReturned.SheetsGivenBack | backend/app/services/watermark_strip.py:364-384 | every sheet of any returned workbook that is there under its issued name loses its first headerFooter and gets back the one recorded for that name, before the first child that must follow it; the other children stay in order |
| XlsxReturned.SetExact | backend/app/services/watermark.py:614-627 | setting replaces every headerFooter of a sheet by one with these texts, before the first child that must follow it and at the end without one |
| XlsxReturned.ResolveExact | backend/app/services/watermark_strip.py:274-284 | a relative target starts from the directory of the part that names it, `..` climbs but not above the root, `.` stays; an absolute one starts from the root |
| XlsxReturned.CopyRegisters | backend/app/services/watermark.py:668-689 | issuing adds to any workbook a sheet listed last under the next sheet number, its relationship, one override each for sheet and drawing, and a png default exactly where none was declared |
| XlsxReturned.CopyAdds | backend/app/services/watermark.py:691-730 | and five parts: the sheet with the lines, and from it, following relationships, its drawing and the QR image |
| XlsxReturned.LeastNumber | backend/app/services/watermark.py:681-684 | the control sheet's number is the smallest that is free |
| XlsxReturned.EmbedExact | backend/app/services/hidden_mark.py:134-142 | embedding into a package with custom properties adds one, numbered one above the largest and not below 2, and changes nothing else |
| XlsxReturned.EmbedCreates | backend/app/services/hidden_mark.py:121-133 | a package without them gets the part, its content type and its relationship under the first free of 999 names; it fails only when all are taken |
| XlsxReturned.RemoveExact | backend/app/services/hidden_mark.py:145-171 | for any package exactly the properties of that name come off; part, content type and relationship go only when the copy created them and nothing is left |
| PdfLayers.VerificationExact | backend/app/services/watermark_strip.py:79-132 | for any returned PDF: no findings if and only if every issued overlay came back tagged, under its name, as issued, nothing claiming to be one differs, and this action's control pages match the list in order |
| PdfLayers.OneFindingEach | backend/app/services/watermark_strip.py:118-132 | in the whole list of findings about any returned PDF, an issued overlay no body page returned has exactly one, of the kind the page count calls for, and a returned one has none |
| PdfLayers.StripUndoesMark | backend/app/services/watermark.py:298-331 | with any sharing of dictionaries between pages, stripping a marked file gives back each page's dictionary and streams less what already looked like ours |
| PdfLayers.DictionariesRestored | backend/app/services/watermark_strip.py:92-105 | all dictionaries come back unchanged if and only if no page showed an entry named or tagged like ours |
| PdfLayers.StreamsRestored | backend/app/services/watermark_strip.py:106-116 | the stream sequence of a page without tagged streams or matching invocations comes back |
| PdfLayers.UnmodifiedCopyClean | backend/app/services/watermark_strip.py:75-132 | an untouched copy yields no findings |
| PdfLayers.DictsClosed | backend/app/services/watermark_strip.py:84-105 | after k pages exactly the dictionaries some visited page shows have been cleaned |
| PdfLayers.SeenClosed | backend/app/services/watermark_strip.py:95-105 | a name counts as seen exactly when some visited page still showed it, although earlier pages delete from shared dictionaries |
| PdfLayers.LayerNames | backend/app/services/watermark.py:308 | different pages get different layer names |
| PdfLayers.IssuedStreams | backend/app/services/watermark.py:316-320 | each page of an issued file shows the tagged opener `q`, the page's own streams in order, and the tagged stream that restores the state and draws the page's layer |
| PdfLayers.IssuedEntries | backend/app/services/watermark.py:308-315 | each page's dictionary has under LCWM and the page number that page's form and images, tagged with the action; besides the layers of pages that share the dictionary, nothing else changed |
| PdfLayers.IssuedControls | backend/app/services/watermark.py:325-331 | after the pages come the control pages, in order and tagged |
| PdfLayers.FindingsExact | backend/app/services/watermark_strip.py:84-132 | a finding about any returned file is reported if and only if it is justified, and for which page: a layer changed, removed, or lost with its page, the control page removed or changed |
| PdfLayers.StrippedExact | backend/app/services/watermark_strip.py:84-134 | stripping any returned file keeps exactly the pages without a control tag, in order and with cleaned streams, and of every dictionary some such page shows exactly the entries without layer tag and LCWM name; other dictionaries stay whole |
| PdfLayers.PdfWriter.MarkOne | backend/app/services/watermark.py:298-323 | marks one page in place, creating resources and dictionary where missing |
| PdfLayers.PdfWriter.Watermark | backend/app/services/watermark.py:281-334 | marks all pages, appends control pages and returns the manifest |
| PdfLayers.PdfWriter.StripEntries | backend/app/services/watermark_strip.py:92-105 | deletes our entries while walking the keys, reporting altered and seen ones |
| PdfLayers.PdfWriter.StripWatermark | backend/app/services/watermark_strip.py:75-134 | the whole strip in place gives the specified file and findings |
| PixelMark.DecodeInvertsPayload | backend/app/services/hidden_mark.py:42-50 | the 80 bits of any mark decode to that mark |
| PixelMark.DecodeSound | backend/app/services/hidden_mark.py:92-100 | any mark the decoder returns is the one whose payload it read |
| PixelMark.OneByteChangeRejected | backend/app/services/hidden_mark.py:97-100 | a change confined to one of the nine coded bytes is rejected |
| PixelMark.NoiseTolerated | backend/app/services/hidden_mark.py:84-100 | the mark is read if every block mean is off by less than 7/4 |
| PixelMark.NoiseBoundSharp | backend/app/services/hidden_mark.py:89-92 | at exactly 7/4 some disturbance is misread, for every mark |
| PixelMark.UnmarkedNotRead | backend/app/services/hidden_mark.py:89-91 | nothing is read from a strip whose means lie within half a step |
| PixelMark.DarkenDropsLuma | backend/app/services/hidden_mark.py:69-77 | darkening a pixel whose channels are at least 7 lowers its luma by exactly 7 |
| PixelMark.WideEnough | backend/app/services/hidden_mark.py:53-63 | a band carries the mark exactly from 176 pixels on |
| PixelMark.MarkSurvives | backend/app/services/hidden_mark.py:57-100 | drawn on any uniform strip and disturbed by less than 7/4 per block mean, the mark is read back |
| PixelMark.PastedBandIsIssued | backend/app/services/watermark.py:424-428 | pasting the band below the picture puts the strip where the reader looks |
| PixelMark.Payload | backend/app/services/hidden_mark.py:42-50 | the loop computes sync word, mark bits and XOR checksum |
| PixelMark.DrawBandMark | backend/app/services/hidden_mark.py:57-72 | in place: exactly the pixels of 1-blocks in the strip get darker, nothing else |
| PixelMark.ReadBandMark | backend/app/services/hidden_mark.py:75-100 | the reading loops compute the specified decision |
| PixelMark.BlockMeanExact | backend/app/services/hidden_mark.py:75-90 | what is read of a block is the exact average of its four middle rows, without the outer columns when it is wider than 3 pixels |
| PixelMark.ClassifyExact | backend/app/services/hidden_mark.py:89-100 | for any 80 means: a mark is read if and only if they span at least 7/2 and those below the middle are exactly those of its 1-bits |
| PixelMark.DrawnExact | backend/app/services/hidden_mark.py:57-72 | for any band: a column is darkened exactly when it lies among the 80 blocks and its block's bit is set, in six rows only, by 7 a channel or what the channel has |
| PixelMark.ChecksumParity | backend/app/services/hidden_mark.py:42-50 | a bit of the checksum is set exactly if an odd number of the bytes has it |
| ImageBlend.UnblendWithinOne | backend/app/services/watermark_strip.py:417-422 | for every overlay alpha up to 170 the stripped channel is within 1 of the original |
| ImageBlend.UnblendOffByTwo | backend/app/services/watermark_strip.py:417-422 | at alpha 171 there is a pixel that comes back off by two |
| ImageBlend.StripWithinOne | backend/app/services/watermark_strip.py:417-422 | every channel of every pixel of an image of any size comes back within 1 |
| ImageBlend.UnblendExact | backend/app/services/watermark_strip.py:417-422 | short of full cover any marked channel turns into the solution of the blending equation, brought into range and rounded half to even |
| TextLines.CleanLineIsOneLine | backend/app/core/text.py:7-14 | the result has no line separator, control or format character, no outer or double space, and is within the limit |
| TextLines.SplitJoinedAll | backend/app/services/copy_integrity.py:166 | splitting joined one-line strings gives them back |
| TextLines.SplitAround | backend/app/services/copy_integrity.py:99 | splitting at the title a text whose front part does not contain it |
| TextLines.CleanAtBlank | backend/app/core/text.py:7-14 | at any blank, control or format character both sides are cleaned for themselves, with one space between them where both have something left |
| TextLines.CleanCut | backend/app/core/text.py:7-14 | a shorter limit cuts the end off and does nothing else |
| TextLines.StripExact | backend/app/services/copy_integrity.py:104-106 | what stands between spaces and neither starts nor ends with one is exactly what is left |
| TextLines.SplitAtBreak | backend/app/services/copy_integrity.py:166 | any text is split line after line at breaks of every kind, `\r\n` counting as one |
| WatermarkText.RecordRoundTrip | backend/app/services/watermark.py:131-159 | for arbitrary names and history the record parses to exactly the printed labels with their trimmed values |
| WatermarkText.AllRead | backend/app/services/copy_integrity.py:164-171 | first occurrences win over the dates of the history, for both parsers |
| WatermarkText.UnmodifiedCopyAccepted | backend/app/services/copy_integrity.py:174-191 | an unmodified download copy with its QR reference, extracted with or without its empty lines, is accepted if and only if no later line adds a label the block lacks |
| WatermarkText.LaterLabelRefuses | backend/app/services/copy_integrity.py:174-191 | any download copy followed by one line `Viewed by: ...` is refused |
| WatermarkText.RefusedCopy | backend/app/services/copy_integrity.py:174-191 | one such copy written out, record and text, is refused |
| WatermarkText.LaterLines | backend/app/services/copy_integrity.py:104-106 | lines after the block never change a label it already has |
| WatermarkText.PrintLines | backend/app/services/watermark.py:131-159 | the printing loops produce the specified lines |
| WatermarkText.RecordedFields | backend/app/services/copy_integrity.py:164-171 | the parsing loop computes the specified dictionary |
| WatermarkText.ControlBlocks | backend/app/services/copy_integrity.py:96-108 | one dictionary per chunk after the title |
| WatermarkText.CheckExact | backend/app/services/copy_integrity.py:174-191 | for any references, text, id and record: a file passes if and only if the id is among its QR references and, where it has text, the first chunk after a title that records this Download ID has all required labels and no label with another value than the record |
| WatermarkText.RemovedRefused | backend/app/services/copy_integrity.py:176-184 | a file without the QR reference, without a title, or without a chunk that records this download is refused, whatever the record says |
| WatermarkText.FieldsExact | backend/app/services/copy_integrity.py:164-171 | a label has a value exactly when the first line that records the label records it |
| WatermarkText.LineExact | backend/app/services/copy_integrity.py:96-108 | a line records a label exactly if that label stands before its first `: `; only a returned copy is read with the spaces around it taken off |
| WatermarkText.ValueExact | backend/app/services/copy_integrity.py:103-106 | the value a line records is what stands after its first `: `, without the spaces around it |
| WatermarkText.KindsPrinted | backend/app/services/watermark.py:131-159 | the record of a view has exactly viewer, wallet, IP, date and View ID, that of a download downloader, wallet, IP, date, Download ID and, where there is one, the owner |
| WatermarkText.NamePrinted | backend/app/services/watermark.py:131-159 | a name is printed cleaned; none, or one of which nothing is left, as Unnamed |
| WatermarkText.WalletPrinted | backend/app/services/watermark.py:80-85 | of a wallet longer than twelve characters the first six and last four are printed, so two of them look alike exactly if they agree in those |
| Lineage.VersionsExact | backend/app/api/assets.py:152-162 | in every run the versions in force of a lineage are exactly 1 to latest, each held by one row, or none is |
| Lineage.DraftIsNext | backend/app/api/assets.py:1956-1984 | at most one revision is pending and it is latest plus one |
| Lineage.DownloadBacksOne | backend/app/api/assets.py:1946-2011 | a modification download backs at most one revision, by its own user, of the version it copied |
| Lineage.ObsoleteMeansSuperseded | backend/app/api/assets.py:1525-1531 | in every run whose labels outside approval are truthful, a row is marked OBSOLETE exactly when it is in force and a later version of its lineage is too |
| Lineage.LabelExact | backend/app/api/assets.py:2549-2579 | in every run of all operations, a row is marked rightly if and only if the last operation that labelled it, unless an approval settled it since, was truthful |
| Lineage.StepTells | backend/app/api/assets.py:1525-1531 | for one step of any kind, a row is marked rightly afterwards if and only if the step labelled it truthfully, or did not label it and it was right before or was settled by this approval |
| Lineage.StaleLabelStays | backend/app/api/assets.py:2541-2585 | a superseded row labelled otherwise once stays unmarked through every continuation, save an assignment that writes OBSOLETE |
| Lineage.ConfirmMisleads | backend/app/api/assets.py:2564-2579 | some confirmation in a lineage would mislabel a version if and only if its token still carries a superseded approved version |
| Lineage.ConfirmedAgain | backend/app/api/assets.py:2541-2585 | the run in which confirming version 1 a second time takes its mark off |
| Lineage.HistoryInOrder | backend/app/api/assets.py:125-149 | the history of version v has one entry for each of 2 to v, in order, from its own lineage, with who made it |
| Lineage.StepKeeps | backend/app/api/assets.py:1932-2041 | proposing, revising, approving, rejecting and every relabelling keep trees, single versions and drafts, paired actions, backing downloads and what the chain shows |
| Lineage.RunKeeps | backend/app/api/assets.py:1480-1659 | so do all sequences of them |
| Lineage.ApprovedSingle | backend/app/api/assets.py:1483-1541 | approving the draft makes it the only holder of the new latest version |
| Lineage.ReviseExact | backend/app/api/assets.py:1942-2011 | in every state that can occur a revision is taken in exactly when its parent is the newest version in force, no revision of the lineage is pending and the download is completed, unused, this user's and of that version; it becomes the pending next version |
| Lineage.RejectedMakesRoom | backend/app/api/assets.py:1650-1659 | after a rejection the parent may be revised again and the new revision has the same version number |
| Lineage.DecisionExact | backend/app/api/assets.py:1480-1659 | status of a row and of its action change exactly by a decision on it while it is pending |
| Lineage.LifecycleExact | backend/app/api/assets.py:1525-1531 | who labels a row, and how, for every operation |
| Lineage.ChainExact | backend/app/api/assets.py:2541-2587 | what the chain shows changes exactly by its own transactions: a root is minted first, then carries what was anchored last, until it is burned |
| Lineage.StartExact | backend/app/api/assets.py:1038-1190 | a proposal starts a lineage with a pending version 1; a download is recorded as it was made |
| Lineage.Registry.DoPropose | backend/app/api/assets.py:1038-1190 | a proposal starts a lineage of its own with a pending version 1 |
| Lineage.Registry.DoFetch | backend/app/api/assets.py:2313-2366 | a download is recorded, not yet used for any revision |
| Lineage.Registry.LineageState | backend/app/api/assets.py:152-162 | the queries give root, latest version and whether a revision is pending |
| Lineage.Registry.DoRevise | backend/app/api/assets.py:1942-2011 | a revision is accepted exactly when the download and lineage checks pass |
| Lineage.Registry.DoApprove | backend/app/api/assets.py:1480-1541 | approval marks the version, and for a revision labels it CREATED and its parent OBSOLETE |
| Lineage.Registry.DoReject | backend/app/api/assets.py:1650-1659 | rejection marks action and version |
| Lineage.Registry.DoConfirm | backend/app/api/assets.py:2541-2587 | confirms exactly an approved version whose hash the chain shows, and labels it MINTED or ANCHORED |
| Lineage.Registry.DoAssign | backend/app/api/assets.py:718-780 | custody of a minted document stores the label it is given |
| Lineage.Registry.DoMaintain | backend/app/api/assets.py:784-845 | maintenance of a minted document labels it MAINTENANCE |
| Lineage.Registry.HistoryOf | backend/app/api/assets.py:125-149 | the climbing loop with its seen set terminates and yields the history |
| Lineage.Registry.FindRoot | backend/app/api/assets.py:2121-2132 | climbing ends at the root of the lineage |
| Lineage.Registry.Listing | backend/app/api/assets.py:2150-2159 | the queue loop terminates and lists every row of the lineage, once, after its parent |
| Downloads.OneCopy | backend/app/api/assets.py:2313-2366 | in every interleaving a request commits at most one copy, and is COMPLETED exactly when it did |
| Downloads.NoCopyWithoutConsent | backend/app/api/assets.py:1642-1645 | where the owner's consent is required nothing is approved or served without it |
| Downloads.CopyIsRequesters | backend/app/api/assets.py:2313-2321 | copies go to the requester, on an approval unexpired when checked |
| Downloads.OneRevision | backend/app/api/assets.py:1951-2011 | a modification copy backs at most one revision |
| Downloads.FinalStays | backend/app/api/assets.py:2253-2269 | REJECTED and COMPLETED are final, consent and revision are never withdrawn |
| Downloads.FailedFetchKeepsApproval | backend/app/api/assets.py:2323-2366 | whatever other requests do between claim and failure, a failed fetch leaves its request exactly as before the claim, approved and free, has made no copy, and takes nothing from any other row |
| Downloads.SecondFetchRefused | backend/app/api/assets.py:2326-2329 | while one fetch has the row any other waits, whatever else happens; if it fails another may claim; once it commits, in every continuation, nobody claims the request again |
| Downloads.ApprovalExact | backend/app/api/assets.py:1642-1659 | a request becomes APPROVED exactly by a privileged request that needs no consent, a privileged owner's consent, or an approver's decision on a pending request with the consent it needs; then for the configured time |
| Downloads.ApprovedByDecision | backend/app/api/assets.py:1868-1900 | in every run nothing is approved or served without such a decision, the owner's own copy aside |
| Downloads.ServedInTime | backend/app/api/assets.py:2313-2366 | an approved request nobody else is fetching is served, as one copy, if and only if its requester comes within the configured time |
| Downloads.RejectionExact | backend/app/api/assets.py:2252-2272 | a request becomes REJECTED exactly while it is pending, by its owner where the owner is asked, or by an approver |
| Downloads.ConsentExact | backend/app/api/assets.py:2252-2272 | consent is recorded exactly when an owner who is asked gives it, once |
| Downloads.AskExact | backend/app/api/assets.py:1868-1900 | a request has its asker, mode and need of consent and nothing decided, unless it is approved at once |
| Downloads.BeginExact | backend/app/api/assets.py:2313-2321 | a fetch begins exactly for the requester of an approved request whose time has not run out |
| Downloads.ReviseExact | backend/app/api/assets.py:1951-2011 | a revision is recorded once for a served modification copy, by the one it was served to, with a number of its own |
| Downloads.OwnerCopyExact | backend/app/api/assets.py:2313-2366 | the owner's own download is one copy and one completed request that names it |
| Downloads.FailedStays | backend/app/api/assets.py:2350-2366 | a fetch that failed never serves anything, whatever follows |
| Downloads.EndedStays | backend/app/api/assets.py:2323-2366 | any fetch stays as it ended, served, refused or failed |
| Downloads.Table.DoAsk | backend/app/api/assets.py:1868-1900 | a new request, approved at once exactly for privileged requesters who need no consent |
| Downloads.Table.OwnerDecision | backend/app/api/assets.py:2252-2272 | the owner's consent or refusal |
| Downloads.Table.Decide | backend/app/api/assets.py:1642-1659 | the approver's decision |
| Downloads.Table.Check | backend/app/api/assets.py:2313-2321 | a fetch starts exactly on an approved, unexpired request of this user |
| Downloads.Table.TryClaim | backend/app/api/assets.py:2326-2329 | the conditional UPDATE waits for the lock and looks at the committed status |
| Downloads.Table.Finish | backend/app/api/assets.py:2350-2366 | commit serves and completes, failure rolls the claim back |
| Downloads.Table.Use | backend/app/api/assets.py:1951-2011 | a completed modification copy of this user takes one revision, anything else none |
| ViewLimits.LimitHolds | backend/app/services/grants.py:69-88 | in every interleaving the committed count is the number of committed views naming the grant and never passes a set limit |
| ViewLimits.FailureConsumesNothing | backend/app/api/assets.py:1745-1757 | whatever other requests do between counting and failing, the grant is exactly as before it counted, no view was recorded, and no other row or view changes |
| ViewLimits.RevokedIsFinal | backend/app/services/grants.py:16-23 | once a free row is revoked, in every continuation nothing more is counted or served through it and it stays revoked |
| ViewLimits.CountedWasUsable | backend/app/services/grants.py:77-85 | the UPDATE takes a free row if and only if it is active, not revoked, for viewing, below its limit and not expired at the time it was built; whatever happens until the commit, exactly that row with one more view is committed |
| ViewLimits.StepKeeps | backend/app/api/assets.py:1716-1782 | every event keeps counts, locks and limits consistent |
| ViewLimits.NothingAfterExpiry | backend/app/services/grants.py:16-23 | in every run a view that names a grant was counted before that grant's expiry, on a grant for viewing |
| ViewLimits.ServedAlone | backend/app/api/assets.py:1716-1782 | from request to served view: a request that meets nobody is served if and only if the grant is active, not revoked, for viewing, below its limit and not expired; then exactly one view is counted and recorded with its time, otherwise nothing changes |
| ViewLimits.LimitIsReached | backend/app/services/grants.py:69-88 | a new grant with a limit serves exactly that many of any number of requests, one without serves all |
| ViewLimits.RolledBackStays | backend/app/api/assets.py:1745-1757 | a request that was rolled back has failed for good |
| ViewLimits.Grants.ConsumeView | backend/app/services/grants.py:69-88 | the conditional UPDATE: waits for the lock, counts exactly when the row matches |
| ViewLimits.Grants.Finish | backend/app/api/assets.py:1753-1782 | commit counts and records the view, rollback releases the row |
| ViewLimits.Grants.DoRevoke | backend/app/api/assets.py:2493-2499 | revocation needs the row free |
| Sessions.OneLiveSession | backend/app/api/auth.py:172-217 | in every run at most one issued token is live |
| Sessions.EndedStaysEnded | backend/app/api/dependencies.py:135-176 | a session that has ended is never live again in any later state |
| Sessions.RefusedForGood | backend/app/api/dependencies.py:135-176 | in every run a request is granted exactly on a live session, from its own address, within the inactivity limit; and once one was refused every later request with that session is refused and changes nothing, from anywhere |
| Sessions.ChecksAreNoActivity | backend/app/api/auth.py:395-407 | however often the page asks whether its session is good, a session whose last activity is too long ago ends |
| Sessions.FullMeansSetUp | backend/app/api/auth.py:476-514 | a live full session, or finished onboarding, has login TOTP and a login passkey behind it |
| Sessions.LinkedHasNoOwn | backend/app/api/auth.py:811-865 | a factor linked to login has no TOTP and no passkey of its own |
| Sessions.StepsNeverRepeat | backend/app/services/mfa.py:125-146 | the accepted time steps of one secret strictly increase across login, factor 2 and factor 3 |
| Sessions.TokensSpentOnce | backend/app/services/mfa.py:350-381 | a step-up token is accepted once, by its user, for its action, in its session, before it expires |
| Sessions.StepKeeps | backend/app/api/auth.py:285-956 | every handler keeps the invariants |
| Sessions.RunKeeps | backend/app/api/dependencies.py:106-176 | so does every sequence of handlers |
| Sessions.ProofExact | backend/app/services/mfa.py:384-411 | a proof passes if and only if it has a token for this user, action, purpose and session that is unexpired and unused, or, without one, a code that matches an enabled authenticator's secret in one of the three steps around now, later than the last; then exactly that token or that step is used up and nothing else changes; with neither it is refused |
| Sessions.NothingLostUnproven | backend/app/services/mfa.py:384-411 | between any state of a run and any later one, an enabled authenticator that is off, replaced or gone, a passkey that became inactive or a link that changed was paid for by one good token or code for just that action somewhere in between, unless an administrator's reset took a login factor |
| Sessions.StepCosts | backend/app/api/auth.py:285-956 | the same for one step of any handler |
| Sessions.SpentOnItsFactor | backend/app/services/mfa.py:48-72 | in every run each accepted token was of the factor its action calls for |
| Sessions.CodeExact | backend/app/services/mfa.py:125-146 | a code is accepted exactly at the first matching step of the three around now that is later than the last accepted; that step is remembered and nothing else changes |
| Sessions.TokenExact | backend/app/services/mfa.py:350-381 | a token is accepted exactly if it exists, is this user's for this action, purpose and session version, unexpired and unused; then it is used and the acceptance recorded |
| Sessions.GrantedExact | backend/app/api/dependencies.py:106-176 | a request is granted exactly on a good session, and changes only the last activity; a refusal at most ends the session |
| Sessions.ActivityKept | backend/app/api/dependencies.py:165-176 | a granted request is recorded as the last activity exactly when the recorded one is older than the touch interval; a session used within the limit less that interval stays good |
| Sessions.TotpSetupExact | backend/app/api/auth.py:476-492 | a secret is drawn exactly in a good session while the factor has no enabled authenticator; for factor 2 or 3 also only in a full session after set-up, unlinked, and with a proof where it has a passkey |
| Sessions.TotpVerifyExact | backend/app/api/auth.py:495-514 | an authenticator becomes enabled exactly by a first good code of its own drawn secret |
| Sessions.TotpResetExact | backend/app/api/auth.py:570-589 | factor 2 or 3 is cleared exactly in a full session with a proof of that factor, the others kept |
| Sessions.RegisterOptionsExact | backend/app/api/auth.py:614-668 | when a registration challenge is issued, and which |
| Sessions.RegisterVerifyExact | backend/app/api/auth.py:671-723 | a passkey is added exactly by a verified answer to a good registration challenge, which is spent either way |
| Sessions.DisableExact | backend/app/api/auth.py:743-767 | a passkey goes exactly in a full session with a proof of its own purpose, never the last login one |
| Sessions.LinkExact | backend/app/api/auth.py:825-865 | a link changes exactly in a full session with a proof of login, and is made only for a factor without methods of its own |
| Sessions.FinishExact | backend/app/api/auth.py:509-514 | set-up completes exactly when authenticator and passkey for login are both there, and then a full session replaces the set-up session |
| Sessions.VerifyBegins | backend/app/api/auth.py:495-514 | a first code starts a session, a full one, exactly when it completes the login set-up during onboarding |
| Sessions.RegisterBegins | backend/app/api/auth.py:671-723 | so does a passkey, exactly when it completes it |
| Sessions.ProvisionExact | backend/app/api/auth.py:287-335 | a set-up session starts exactly with the unused PIN in time |
| Sessions.LoginTotpExact | backend/app/api/auth.py:350-357 | signing in by code succeeds exactly with a good code of the enabled login authenticator; otherwise nothing changes |
| Sessions.LoginOptionsExact | backend/app/api/auth.py:360-368 | a sign-in challenge is issued exactly where a login passkey is active for this site |
| Sessions.LoginPasskeyExact | backend/app/api/auth.py:371-382 | signing in by passkey succeeds exactly with a good challenge and a verified active login passkey; the challenge is spent either way |
| Sessions.LogoutExact | backend/app/api/auth.py:385-391 | signing out on a good session ends it and changes nothing else |
| Sessions.StepUpTotpExact | backend/app/api/auth.py:596-611 | a token is issued exactly in a full session for a good code of the authenticator that counts |
| Sessions.StepUpOptionsExact | backend/app/api/auth.py:778-789 | a step-up challenge carries its action and is issued exactly where a passkey that counts is active for this site |
| Sessions.StepUpPasskeyExact | backend/app/api/auth.py:792-806 | a token for the challenge's own action is issued exactly for a good challenge and a verified passkey that counts |
| Sessions.AnswerSpends | backend/app/api/auth.py:792-806 | an answer spends its challenge also when it does not hold |
| Sessions.ProtectedExact | backend/app/services/mfa.py:384-411 | a protected handler uses up one proof exactly in a full session, with a proof of its action, when it commits; otherwise none |
| Sessions.ResetExact | backend/app/services/mfa.py:419-441 | a reset takes the login authenticator and exactly the login passkeys, ends the session and opens a new PIN |
| Sessions.RevokeExact | backend/app/services/identity.py:44-47 | a revocation deactivates and ends the session, a change of role ends the session, and nothing else changes |
| Sessions.Identity.Verify | backend/app/services/mfa.py:125-146 | the loop over three steps accepts exactly a fresh matching step and remembers it |
| Sessions.Identity.ConsumeGrant | backend/app/services/mfa.py:364-381 | the conditional UPDATE on step-up tokens |
| Sessions.Identity.Require | backend/app/services/mfa.py:384-411 | a token first, then a code, only where a factor is set up |
| Sessions.Identity.Admit | backend/app/api/dependencies.py:106-176 | version, address and inactivity checks, two of which end the session |
| Sessions.Identity.DoCheck | backend/app/api/auth.py:395-407 | the session check that does not count as activity |
| Sessions.Identity.Start | backend/app/api/auth.py:172-217 | a new session replaces all earlier ones and is full exactly when set-up is complete |
| Sessions.Identity.DoProvision | backend/app/api/auth.py:287-335 | the one-time PIN starts one set-up session |
| Sessions.Identity.DoLoginTotp | backend/app/api/auth.py:350-357 | a fresh code of the enabled login authenticator starts a session |
| Sessions.Identity.DoLoginOptions | backend/app/api/auth.py:360-368 | a sign-in challenge where a passkey for this site exists |
| Sessions.Identity.DoLoginPasskey | backend/app/api/auth.py:371-382 | the challenge is spent, a holding assertion starts a session |
| Sessions.Identity.DoLogout | backend/app/api/auth.py:385-391 | logging out ends the session |
| Sessions.Identity.DoTotpSetup | backend/app/api/auth.py:476-492 | a new secret replaces an unconfirmed one only |
| Sessions.Identity.DoTotpVerify | backend/app/api/auth.py:495-514 | the first code enables the factor and may complete login set-up |
| Sessions.Identity.DoTotpReset | backend/app/api/auth.py:570-589 | resetting a factor needs that factor |
| Sessions.Identity.DoRegisterOptions | backend/app/api/auth.py:614-668 | a registration challenge, after the proof the purpose asks for |
| Sessions.Identity.DoRegisterVerify | backend/app/api/auth.py:671-723 | a verified registration adds one passkey |
| Sessions.Identity.DoDisablePasskey | backend/app/api/auth.py:743-767 | the last login passkey cannot be disabled |
| Sessions.Identity.DoUseLogin | backend/app/api/auth.py:825-845 | linking needs a factor without methods of its own |
| Sessions.Identity.DoUseSeparate | backend/app/api/auth.py:848-865 | unlinking |
| Sessions.Identity.DoStepUpTotp | backend/app/api/auth.py:596-611 | a fresh code yields a token for the action asked for |
| Sessions.Identity.DoStepUpOptions | backend/app/api/auth.py:778-789 | a challenge bound to the action |
| Sessions.Identity.DoStepUpPasskey | backend/app/api/auth.py:792-806 | a passkey proof yields a token for the challenge's own action |
| Sessions.Identity.DoProtected | backend/app/services/mfa.py:384-411 | a protected handler needs a full session and the proof of its action; if its own work fails the proof is rolled back |
| Sessions.Identity.DoAdminReset | backend/app/services/mfa.py:419-441 | an administrator's reset clears the login factors and ends every session |
| Sessions.Identity.DoRevoke | backend/app/services/identity.py:44-47 | revocation deactivates the identity and ends every session |
| Indexer.EachLogOnce | backend/app/indexer/event_indexer.py:153-169 | whatever fails, crashes, restarts or is replaced, each log has at most one row and its side effect happens at most once, never without the row |
| Indexer.NoGaps | backend/app/indexer/event_indexer.py:451-495 | if no window that moves the cursor lost an unrecorded row or was an unsafe catch-up, and no cursor was saved on a chain replaced below it, every log up to the cursor is recorded whenever the running chain is the one the cursor came from |
| Indexer.UnsafeCatchUpLoses | backend/app/indexer/event_indexer.py:497-508 | outside that condition on a catch-up there is a covered state that loses a log |
| Indexer.PollExact | backend/app/indexer/event_indexer.py:362-365 | after a poll whose window completes, everything up to the cursor is recorded if and only if every log of the window whose row was lost had one already |
| Indexer.WindowExact | backend/app/indexer/event_indexer.py:451-495 | the same for any completed window, of a poll or a catch-up |
| Indexer.LiveReplacementLeavesGap | backend/app/indexer/event_indexer.py:514-533 | on a chain replaced under the running process, an unrecorded log at or below the cursor stays unrecorded through every sequence of blocks, polls and later catch-ups |
| Indexer.SavedCursorKeepsGap | backend/app/indexer/event_indexer.py:521-531 | once a poll has saved its cursor on that chain, no crash and no restart brings the log back |
| Indexer.RestartExact | backend/app/indexer/event_indexer.py:105-142 | a restart resumes at the saved block exactly when that is still the same block of the same contract, and rescans otherwise; everything up to the cursor is then recorded if and only if it rescans, or everything up to the saved block was recorded |
| Indexer.RestartRecovers | backend/app/indexer/event_indexer.py:105-142 | in every run as NoGaps admits them a restart is covered, also after a live replacement |
| Indexer.FailedWindowRetries | backend/app/indexer/event_indexer.py:489-491 | however many windows fail, cursor and saved state stay, no row is lost, and the first window that completes starts at the same block and skips nothing |
| Indexer.StartKeeps | backend/app/indexer/event_indexer.py:105-142 | a restart resumes only where the saved cursor still names this chain and contract |
| Indexer.WindowRowsExact | backend/app/indexer/event_indexer.py:451-495 | which logs a window records: those of the contract in its blocks, of the kinds fetched, whose row could be committed, and if it is stopped no others |
| Indexer.WriteExact | backend/app/indexer/event_indexer.py:153-169 | a log recorded already or whose row is lost changes nothing; any other adds its row, and the change of owner exactly when it hands a registered document to an active owner |
| Indexer.OwnersExact | backend/app/indexer/event_indexer.py:153-169 | after any batch each registered document belongs to whom the last new transfer to an active owner names |
| Indexer.ReachesHead | backend/app/indexer/event_indexer.py:514-533 | n polls without failure move the cursor by 500 blocks each, up to the head |
| Indexer.CatchUpToHead | backend/app/indexer/event_indexer.py:497-508 | a catch-up to block 0 is one to the head |
| Indexer.EventIndexer.WriteEvent | backend/app/indexer/event_indexer.py:153-169 | row and side effect in one transaction, skipped when indexed |
| Indexer.EventIndexer.IndexBlocks | backend/app/indexer/event_indexer.py:451-495 | the loops over kinds and logs write what was fetched and move the cursor only when all was |
| Indexer.EventIndexer.DoPoll | backend/app/indexer/event_indexer.py:521-533 | one polling step in windows of 500 blocks |
| Indexer.EventIndexer.DoCatchUp | backend/app/indexer/event_indexer.py:497-508 | one catch-up |
| Indexer.EventIndexer.DoStart | backend/app/indexer/event_indexer.py:105-142 | the validated cursor |
| Alerts.ChainHolds | backend/app/services/alerts.py:128-186 | in every run each history replays to the present stage, in at most three upward moves, none by the subject, and a revocation comes only from ADMIN_REVIEW with its subject deactivated |
| Alerts.NeverFalls | backend/app/services/alerts.py:86-101 | along every run history only grows and stage, severity and score never fall |
| Alerts.NeverStuck | backend/app/services/alerts.py:146-173 | given an active auditor and an active administrator other than the subject, somebody can move any open alert on |
| Alerts.NotParked | backend/app/services/alerts.py:146-154 | forwarding enters the manager stage exactly when an independent manager can then move the alert on |
| Alerts.OneAlertPerDay | backend/app/services/alerts.py:53-62 | two open AI alerts about one person were created more than 24 hours apart |
| Alerts.GroupingAgrees | backend/ml/evaluate.py:59-67 | while nothing is closed the live code raises as many AI alerts on a time-ordered stream as the offline loop counts incidents |
| Alerts.CountIncidents | backend/ml/evaluate.py:63-67 | the offline loop |
| Alerts.FirstGroup | backend/app/services/alerts.py:57-60 | the first open AI alert about the person from the last 24 hours |
| Alerts.MovesExact | backend/app/services/alerts.py:146-186 | every operation moves an alert exactly as one table says, by the role of its stage, never the subject, with one history entry, and nothing else about it changes |
| Alerts.ReportExact | backend/app/services/alerts.py:37-80 | every HIGH or CRITICAL event, of the AI or of a rule, not reported before opens one alert or counts as evidence in the open incident it belongs to; any other changes nothing |
| Alerts.UsersExact | backend/app/services/alerts.py:176-186 | only a revocation from an alert and a direct deactivation take access away, the first exactly the subject's |
| Alerts.NextDay | backend/app/services/alerts.py:53-62 | more than a day after every alert so far the next unusual action is an incident of its own |
| Alerts.StaffCounts | backend/app/services/alerts.py:104-161 | whether a forward goes to the manager stage follows the managers that are there when it is made |
| Alerts.Desk.RaiseAlert | backend/app/services/alerts.py:37-80 | raises once per event, or adds to the open alert |
| Alerts.Desk.AddEvidence | backend/app/services/alerts.py:86-101 | severity and score only rise and each rise of severity is recorded |
| Alerts.Desk.DoForward | backend/app/services/alerts.py:146-161 | forwarding skips the manager stage exactly when no independent manager exists |
| Alerts.Desk.DoDismiss | backend/app/services/alerts.py:164-173 | dismissal by the role of the stage, with a note |
| Alerts.Desk.DoRevokeSubject | backend/app/services/alerts.py:176-186 | revocation by an administrator at the last stage deactivates the subject |
| ChainRoles.PlanNeverExceeds | backend/app/services/chain.py:167-173 | wherever the transactions stop, the wallet holds no more than before or no more than it should |
| ChainRoles.PlanConverges | backend/app/services/chain.py:162-177 | all of them together lead to the wanted roles |
| ChainRoles.WantedSeparates | backend/app/services/chain.py:29-35 | whoever should hold a role is registered, active and no plain user, and an auditor's wallet holds no role that changes assets |
| ChainRoles.WantedExact | backend/app/services/chain.py:29-35 | a wallet should hold a role exactly if an active identity with that wallet is entitled to it: administrators and managers to those that change assets, auditors to the one that reads |
| ChainRoles.Contract.Sync | backend/app/services/chain.py:162-177 | the roles after every block on the way, and at the end, are those after a first part of the plan, other wallets untouched; an unreadable wallet, an unsent transaction and an unreadable result are told apart, and the final comparison never fails |
| ChainRoles.Contract.SyncAll | backend/app/services/chain.py:211-219 | without failures every registered wallet holds exactly its roles, the others are untouched, and the bounds hold after every block |
| ChainRoles.Contract.RoleHolders | backend/app/services/chain.py:125-140 | the scan in windows of 1000 blocks finds exactly the wallets granted a role from deployment to head |
| ChainRoles.Contract.Sweep | backend/app/services/chain.py:220-232 | a sweep without error leaves no unregistered wallet with a role; at every block registered wallets are as before and the others gain nothing |
| ChainRoles.Contract.ReconcileAll | backend/app/services/chain.py:202-233 | failed 0 means registered wallets hold exactly their roles and all others none; even with failures, after every block of the run each wallet holds no more than before or no more than it should |
| KeyRotation.RotateEncryption | backend/app/services/key_rotation.py:34-73 | commits exactly when everything was readable and it is no dry run; then every value is the rotated one and the first new key alone decrypts it to the secret it stood for; else every value is unchanged |
| KeyRotation.RowsFacts | backend/app/services/key_rotation.py:46-67 | nothing is unreadable exactly when every field can be read, and every record is counted once |
| KeyRotation.OldKeysDropped | backend/app/services/key_rotation.py:42-45 | after a commit a run with the new keys alone reads everything and changes nothing |
| KeyRotation.ReportExact | backend/app/services/key_rotation.py:46-67 | the report counts all, re-encrypted and migrated secrets, and names exactly the fields that could not be read |
| KeyRotation.User.RotateFields | backend/app/services/key_rotation.py:47-68 | the inner loop rewrites exactly the readable fields |
| KeyRotation.ReadRing | backend/app/services/key_rotation.py:42-43 | the reading ring has exactly the new and the old keys |

## Left out

- XlsxPackage.RoundTrip: the workbook must be tidy (one sheet per part, sheets with a relationship, names local to
  existing sheets, nothing named like this copy's own additions); without that the code itself does not restore it.
- XlsxPackage.ReportExact: needs distinct sheet parts, because a part checked twice has already been restored once.
- XlsxPackage.Archive.StripCopy: a file whose parts are not the kind the code parses them as ends in the catch-all
  finding of `strip_watermark`, which is not part of this model; neither are archives that list an entry twice.
- XlsxPackage.Archive.Issue: the package's element lists hold what the code looks at; text between elements and
  attributes it never reads are not represented.
- PdfLayers.StreamsRestored: the joining and rewriting of content streams is a parameter with the one law the code
  needs; a page's inherited resources are taken as its own.
- PixelMark.MarkSurvives: JPEG compression is represented by its effect on the block means only.
- ImageBlend.UnblendWithinOne: the marked value is any nearest-integer blend with an opaque original; which one Pillow
  picks does not matter.
- WatermarkText.UnmodifiedCopyAccepted: extracting text and QR references from a file is a parameter that keeps the lines
  of the block in order and may add or drop empty ones; the order of the history by date is taken as given.
- Lineage.LabelExact: the labels of physical assets, which are never revised (backend/app/api/assets.py:2504-2537), are not
  part of it. The chain is the version each token carries; whoever holds the role may put any version's hash there.
- Lineage.Registry.DoRevise: two revisions submitted at the same moment; the handler has no conditional UPDATE and is one step here.
- ViewLimits.LimitHolds: the database is reduced to committed rows, one lock per row and a WHERE clause evaluated when the lock is held.
- Sessions.StepsNeverRepeat: counts acceptances that were committed; a handler that is rolled back after verifying a
  code forgets the step, and handlers run one at a time.
- Sessions.StepKeeps: JWT signing and expiry, WebAuthn and wallet signatures, rate limits and the request for a reset are parameters or absent.
- Indexer.NoGaps: the block hash stands for the chain up to the block, and no log of the contract precedes its deployment
  block. A new deployment record takes effect at once; the program reads it again at a restart or a lost connection.
- Indexer.EventIndexer.WriteEvent: of the side effects only the transfer of ownership is modelled; mint, anchor and role
  checks only add a risk label. Scores and alerts raised beside the row are not part of it.
- Alerts.NeverStuck: an alert about an identity that is already revoked can be dismissed but not closed by revocation.
- Alerts.GroupingAgrees: AI events carry an actor and every event is a row of its own, as in the offline data.
- ChainRoles.Contract.Sync: nobody else changes roles meanwhile; a transaction is mined, fails, or is mined although
  the caller sees an error. The contract itself is only its role sets and its grant log.
- KeyRotation.RotateEncryption: encryption is a key and a text; only a ring with the key gets the text back.
- DOCX and PPTX watermarking: the same idea as XLSX and PDF, tied to library object models.
- File formats at byte level, fonts, QR decoding, image codecs.
- The risk model's training and scoring, simulation, the user interface, set-up scripts, configuration.
- Audit rows and their search, and physical assets: no invariant across steps. Of maintenance, custody, chain
  confirmation and the indexed AssetRevoked event only the lifecycle label they write is modelled.
