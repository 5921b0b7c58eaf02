# Motion recording, erasing and motion export in Xournal++

This project models the Xournal++ code that records how ink is drawn and erased, and that exports those recordings.

- **Motion logs.** `MotionRecording` holds the timestamped samples of one stroke. `EraserMotionRecording` holds the contacts of the eraser, each with its size, its page and the strokes it touched. The model gives both logs their append, query and clear operations. It also models the stream format of the stroke log, which writes a count and then five fields per sample.
- **Erase gesture.** `EraseHandler` runs one eraser gesture. Each `erase` call logs one eraser sample. It then deletes or partially erases every stroke that the eraser rectangle meets, and opens the undo actions lazily. `finalize` closes the undo action and appends the eraser's own stroke, carrying its log, to the selected layer.
- **Exporter.** `MotionExporter::startExport` tallies the motion data of a document. It computes the frame count and writes `motion_metadata.json`.
- **Controller.** `MotionExportController` builds the timestamped output folder name `motion_export_YYYY-MM-DD_HH-MM-SS`, joins it to the configured folder and calls the exporter.

The model has these modules:

- `Wrappers` holds `Option`.
- `Elements` holds the document, page and stroke values.
- `Decimal` holds decimal text as `<<` and `printf` write it.
- `MotionRecordings` covers `MotionRecording.cpp/.h`.
- `EraserRecordings` covers `EraserMotionRecording.cpp/.h`.
- `Erasing` covers `EraseHandler.cpp/.h`.
- `MotionExport` covers `MotionExporter.cpp`.
- `ExportControl` covers `MotionExportController.cpp`.

Modelling choices:

- **Erase handler.** The erase handler is a class whose fields are the fields of the C++ handler. Its methods are proved against a pure gesture state machine, `Erasing.Gesture`. The properties of one gesture are lemmas about that state machine.
- **Exporter.** The exporter's loops are methods proved equal to specification functions:
  - `Summarize` over `Recordings` for the tally;
  - `MetadataText` for the JSON text.
  Lemmas state what those functions mean:
  - which recordings are read;
  - that the minimum and maximum timestamps bound and are attained;
  - that entries are comma-separated in order;
  - that a point's `"t"` field reads back as its timestamp.
- **Integers.** `size_t` is a natural below 2^64 (`SizeT`). Arithmetic that can wrap is written out modulo 2^64. `ObjectOutputStream::writeUInt` narrows to 32 bits.

Three details of the source shape the model:

- `EraseHandler::finalize` (EraseHandler.cpp:178-183) closes the erase action, or else the delete action: it is an `else if`. When one gesture has opened both, the delete handle stays open. `Erasing.FinalizeOutcome` states this.
- `EraserMotionRecording.h:33-34` and `:64` declare a three-argument contact constructor and `addMotionPoint`. `EraserMotionRecording.cpp:15-17` defines `addMotionPoint` with a fourth argument, a page index, and stores it in the contact. The model follows the `.cpp`.
- `MotionExporter::startExport` returns at MotionExporter.cpp:29-32 when an export is running, before it touches `exporting`. That call returns false and leaves `exporting` true.

## Model

| member | source | states |
|---|---|---|
| MotionRecordings.AppendTimestamps | src/core/model/MotionRecording.cpp:18-42 | after an append, the end timestamp is the new sample's; the start is unchanged unless the log was empty |
| MotionRecordings.MotionRecording.constructor | src/core/model/MotionRecording.h:44 | a new recording has no samples |
| MotionRecordings.MotionRecording.Copy | src/core/model/MotionRecording.h:47 | a copy holds the same samples as its source |
| MotionRecordings.MotionRecording.AddMotionPoint | src/core/model/MotionRecording.cpp:18-20 | the sample, with the eraser flag defaulting to false (MotionRecording.h:58), is appended at the end and nothing else changes |
| MotionRecordings.MotionRecording.GetMotionPoints | src/core/model/MotionRecording.cpp:22 | the samples, in recording order |
| MotionRecordings.MotionRecording.HasMotionData | src/core/model/MotionRecording.cpp:24 | true exactly when the log is non-empty |
| MotionRecordings.MotionRecording.GetMotionPointCount | src/core/model/MotionRecording.cpp:26 | the number of samples |
| MotionRecordings.MotionRecording.Clear | src/core/model/MotionRecording.cpp:28 | the log becomes empty |
| MotionRecordings.MotionRecording.GetStartTimestamp | src/core/model/MotionRecording.cpp:30-35 | the first sample's timestamp, or 0 for an empty log |
| MotionRecordings.MotionRecording.GetEndTimestamp | src/core/model/MotionRecording.cpp:37-42 | the last sample's timestamp, or 0 for an empty log |
| MotionRecordings.UIntOf | src/core/model/MotionRecording.cpp:45 | a written unsigned value is below 2^32 and equals the value when it fits |
| MotionRecordings.MotionRecording.Serialize | src/core/model/MotionRecording.cpp:44-53 | the stream gains the count followed by x, y, pressure, timestamp and flag of every sample in order |
| MotionRecordings.MotionRecording.ReadSerialized | src/core/model/MotionRecording.cpp:55-72 | the log is replaced by the records read. A stream cut short yields failure, and the log keeps the records read before the cut |
| MotionRecordings.RecordsRoundTrip | src/core/model/MotionRecording.cpp:44-72 | reading back the written records, with timestamps below 2^32, yields the same samples and leaves the rest of the stream |
| MotionRecordings.SerializeRoundTrip | src/core/model/MotionRecording.cpp:44-72 | `readSerialized` after `serialize` restores the log and leaves the rest of the stream whenever the count and every timestamp fit in 32 bits |
| MotionRecordings.WideTimestampNarrowed | src/core/model/MotionRecording.cpp:50 | a timestamp of 2^32 does not survive the round trip |
| EraserRecordings.EraserMotionPoint.AddAffectedStroke | src/core/model/EraserMotionRecording.h:36-38 | the index is pushed at the back of the contact's list; position, time, size and page are unchanged |
| EraserRecordings.NewContact | src/core/model/EraserMotionRecording.cpp:15-17 | a contact carries the given point, timestamp, size and page, and no affected strokes |
| EraserRecordings.TagLastOnlyTouchesLast | src/core/model/EraserMotionRecording.cpp:19-23 | tagging keeps the count and every earlier contact, and pushes the index onto the last contact only; on an empty log it does nothing |
| EraserRecordings.TagLastTwice | src/core/model/EraserMotionRecording.h:66-70 | two tags land in call order on the contact that is last |
| EraserRecordings.EraserMotionRecording.constructor | src/core/model/EraserMotionRecording.h:50 | a new log is empty |
| EraserRecordings.EraserMotionRecording.Copy | src/core/model/EraserMotionRecording.h:53 | a copy holds the same contacts |
| EraserRecordings.EraserMotionRecording.Assign | src/core/model/EraserMotionRecording.h:55 | assignment copies the contacts and leaves the source unchanged |
| EraserRecordings.EraserMotionRecording.AddMotionPoint | src/core/model/EraserMotionRecording.cpp:15-17 | one new contact is appended at the end |
| EraserRecordings.EraserMotionRecording.AddAffectedStrokeToLast | src/core/model/EraserMotionRecording.cpp:19-23 | the log becomes the log with its last contact tagged |
| EraserRecordings.EraserMotionRecording.GetMotionPoints | src/core/model/EraserMotionRecording.cpp:25-27 | the contacts, in recording order |
| EraserRecordings.EraserMotionRecording.HasMotionData | src/core/model/EraserMotionRecording.cpp:29-31 | true exactly when the log is non-empty |
| EraserRecordings.EraserMotionRecording.GetMotionPointCount | src/core/model/EraserMotionRecording.cpp:33-35 | the number of contacts |
| EraserRecordings.EraserMotionRecording.Clear | src/core/model/EraserMotionRecording.cpp:37-39 | the log becomes empty |
| EraserRecordings.EraserMotionRecording.GetStartTimestamp | src/core/model/EraserMotionRecording.cpp:41-46 | the first contact's timestamp, or 0 |
| EraserRecordings.EraserMotionRecording.GetEndTimestamp | src/core/model/EraserMotionRecording.cpp:48-53 | the last contact's timestamp, or 0 |
| EraserRecordings.CopyIsIndependent | src/core/model/EraserMotionRecording.h:53-56 | tagging a copy leaves the original's contacts unchanged |
| Erasing.TruncToInt | src/core/control/tools/EraseHandler.cpp:64-65 | `gint(...)` truncates toward zero, from below for positive values and from above for negative ones |
| Erasing.EraserRect | src/core/control/tools/EraseHandler.cpp:63-65 | the rectangle is the truncated corner at (x - half, y - half) with side twice the half size |
| Erasing.PaddingCoefficient | src/core/control/tools/EraseHandler.h:67 | round cap 0.4, butt cap 0.01, square cap 0.5 |
| Erasing.PaddedEraserBox | src/core/control/tools/EraseHandler.cpp:139-140 | the box is centred on the contact; its inner radius is the half size, and its outer radius adds the cap coefficient times the stroke width |
| Erasing.PaddingBounds | src/core/control/tools/EraseHandler.cpp:139-140 | the padding never shrinks the box and never exceeds half the stroke width |
| Erasing.StampTime | src/core/control/tools/EraseHandler.cpp:85-89 | a non-zero timestamp is kept; zero is replaced by the monotonic clock in milliseconds |
| Erasing.NewEraserStroke | src/core/control/tools/EraseHandler.cpp:76-80 | the eraser's stroke has the eraser tool, twice the thickness as width, white colour and no log yet, with a new stroke's defaults: no fill, round caps, no dashes |
| Erasing.IndexOf | src/core/control/tools/EraseHandler.cpp:134-136 | the first position holding the stroke, or -1 exactly when it is absent |
| Erasing.RemoveAt | src/core/control/tools/EraseHandler.cpp:114 | exactly the element at the position leaves; those before it keep their places and those after it move down by one |
| Erasing.RemoveAtKeepsAll | src/core/control/tools/EraseHandler.cpp:114 | the remaining layer plus the removed element are, as a multiset, the layer before |
| Erasing.DeleteMovesElement | src/core/control/tools/EraseHandler.cpp:114-132 | removing the stroke from the layer and adding it to the delete action's entries keeps the layer and the entries' elements, taken together, the same multiset |
| Erasing.CountUpdate | src/core/control/tools/EraseHandler.cpp:132 | filling an open undo action does not change how many actions of each kind exist |
| Erasing.OpenDeleteAction | src/core/control/tools/EraseHandler.cpp:125-130 | afterwards a delete action is open and its handle points at a delete action |
| Erasing.OpenEraseAction | src/core/control/tools/EraseHandler.cpp:148-153 | afterwards an erase action is open and its handle points at an erase action |
| Erasing.EraseStrokeStep | src/core/control/tools/EraseHandler.cpp:103-175 | erasing one stroke keeps the handles consistent and leaves the eraser log, the eraser stroke and the half size alone |
| Erasing.DeleteModeOutcome | src/core/control/tools/EraseHandler.cpp:106-132 | in delete mode, a stroke that misses the eraser circle or is gone from the layer changes nothing. Otherwise it leaves the layer, and the undo list becomes the old list with the delete action, opened now if none was open, extended by that element and its position. The erase handle and the erasable states do not change |
| Erasing.StandardModeOutcome | src/core/control/tools/EraseHandler.cpp:133-174 | the standard eraser never changes the layer. On first touch, a stroke whose padded box meets it begins erasure and is appended, with its position, to the originals of the erase action. That action is reused when open, or appended at the end of the undo list. Its finalized flag is kept, and no other undo action and not the delete handle changes. On later touches only its erasable state grows, by the new padded box |
| Erasing.EraseAppendsOneSample | src/core/control/tools/EraseHandler.cpp:62-92 | each `erase` appends exactly one sample at (x, y) with pressure -1 and the eraser flag set. The log and its stroke are created on the first call only |
| Erasing.StandardEraseKeepsLayer | src/core/control/tools/EraseHandler.cpp:94-98 | a whole `erase` call in standard mode keeps the layer and opens no delete action |
| Erasing.Start | src/core/control/tools/EraseHandler.cpp:37-48 | a freshly constructed handler satisfies the gesture invariant |
| Erasing.RecordSample | src/core/control/tools/EraseHandler.cpp:63-92 | the log exists afterwards and grows by exactly the sample at (x, y), pressure -1, eraser flag set; the layer, the undo actions, the handles and the erasable states do not change |
| Erasing.VisitStep | src/core/control/tools/EraseHandler.cpp:95-97 | visiting one element keeps the handles consistent and leaves the log, the eraser stroke and the half size alone |
| Erasing.VisitAll | src/core/control/tools/EraseHandler.cpp:94-98 | the loop over the elements keeps the handles consistent and leaves the log, the eraser stroke and the half size alone |
| Erasing.EraseStep | src/core/control/tools/EraseHandler.cpp:62-101 | an `erase` call keeps a selected layer and the handles consistent; its effects are given by EraseAppendsOneSample, StandardEraseKeepsLayer and EraseKeepsInv |
| Erasing.EraseKeepsInv | src/core/control/tools/EraseHandler.cpp:62-175 | one `erase` call preserves the gesture invariant |
| Erasing.GestureKeepsInv | src/core/control/tools/EraseHandler.cpp:62-175 | over any run of `erase` calls: earlier undo actions are untouched, at most one delete and one erase action are registered, the elements left in the layer and those held by the delete action are exactly the starting layer as a multiset, and no original is recorded twice |
| Erasing.RunLog | src/core/control/tools/EraseHandler.cpp:72-92 | after n calls the log holds n samples, and the eraser stroke is the one the first call built |
| Erasing.FinalizeStep | src/core/control/tools/EraseHandler.cpp:177-205 | finalizing keeps the handles consistent |
| Erasing.FinalizeOutcome | src/core/control/tools/EraseHandler.cpp:177-205 | the erase action is marked finalized and forgotten, and no other undo action changes; or else the delete handle is dropped and the undo list is unchanged. When a log exists, the eraser stroke with the log is appended to the selected layer. The log is reset |
| Erasing.FinalizeTwiceAddsNothing | src/core/control/tools/EraseHandler.cpp:177-205 | a second finalize adds no element and changes no undo action |
| Erasing.GestureLeavesEraserStroke | src/core/control/tools/EraseHandler.cpp:177-200 | a gesture of at least one call, once finalized, ends the layer with a white eraser stroke. The stroke is twice the first thickness wide and holds one sample per call |
| Erasing.DestroyStep | src/core/control/tools/EraseHandler.cpp:50-57 | the destructor always drops the eraser log and its stroke |
| Erasing.DestroyOutcome | src/core/control/tools/EraseHandler.cpp:50-57 | with a delete action open, the destructor is `finalize`: the handle closes and the eraser stroke with its log joins the layer. Otherwise the layer, the undo actions, the erase handle and the erasable states stay as they were, so an open erase action stays unfinalized and the eraser stroke is discarded |
| Erasing.EraseHandler.constructor | src/core/control/tools/EraseHandler.cpp:37-48 | no handle is open, the half size is 0 and no eraser log exists |
| Erasing.EraseHandler.Erase | src/core/control/tools/EraseHandler.cpp:62-101 | the handler's state moves as `EraseStep` says. The log object is created on the first call and kept afterwards |
| Erasing.EraseHandler.LogSample | src/core/control/tools/EraseHandler.cpp:63-92 | the state moves as `RecordSample` says, and the log exists afterwards |
| Erasing.EraseHandler.EraseElements | src/core/control/tools/EraseHandler.cpp:94-98 | the loop over the layer's elements has the effect of `VisitAll` |
| Erasing.EraseHandler.EraseStroke | src/core/control/tools/EraseHandler.cpp:103-175 | the state moves as `EraseStrokeStep` says |
| Erasing.EraseHandler.Finalize | src/core/control/tools/EraseHandler.cpp:177-205 | the state moves as `FinalizeStep` says, and the log object is released |
| Erasing.EraseHandler.Destroy | src/core/control/tools/EraseHandler.cpp:50-57 | the state moves as `DestroyStep` says |
| MotionExport.ElementRecordingsMembers | src/core/motion/MotionExporter.cpp:69-83 | a recording is read from a layer exactly when some stroke of the layer carries it |
| MotionExport.PagesRecordingsMembers | src/core/motion/MotionExporter.cpp:62-67 | null pages are skipped, and every recording of every present page is read |
| MotionExport.RecordingsAreTheMotionStrokes | src/core/motion/MotionExporter.cpp:62-84 | the recordings tallied are exactly those of the motion-bearing strokes on the present pages |
| MotionExport.SummarizeAppend | src/core/motion/MotionExporter.cpp:75-79 | tallying one more recording adds its count and widens the range by its start and end |
| MotionExport.TotalZeroIffAllEmpty | src/core/motion/MotionExporter.cpp:86-90 | the point total is zero exactly when every recording is empty |
| MotionExport.SummarizeBounds | src/core/motion/MotionExporter.cpp:58-84 | the minimum is at most every non-empty recording's start and the maximum at least every end. With no data they stay SIZE_MAX and 0 |
| MotionExport.SummarizeAttained | src/core/motion/MotionExporter.cpp:76-79 | when some recording has data, the minimum is some recording's start and the maximum some recording's end |
| MotionExport.Summarize | src/core/motion/MotionExporter.cpp:57-84 | the tally of the counting loops; with no points, the minimum and maximum keep their initial values SIZE_MAX and 0 |
| MotionExport.TallyElement | src/core/motion/MotionExporter.cpp:72-81 | one element of the innermost loop adds exactly what `Summarize` adds for its recording, if it has one |
| MotionExport.TallyElements | src/core/motion/MotionExporter.cpp:70-82 | the loop over one layer's elements continues the tally with that layer's recordings |
| MotionExport.TallyLayers | src/core/motion/MotionExporter.cpp:68-83 | the loop over one page's layers continues the tally with that page's recordings |
| MotionExport.TallyDocument | src/core/motion/MotionExporter.cpp:57-84 | the nested loops compute `Summarize` of the document's recordings |
| MotionExport.TotalFrames | src/core/motion/MotionExporter.cpp:92-98 | the frame count is at least 1, and exactly 1 when the latest timestamp does not exceed the earliest |
| MotionExport.TotalFramesExact | src/core/motion/MotionExporter.cpp:93-95 | when no overflow occurs, frames = duration times frame rate divided by 1000, plus 1 |
| MotionExport.BackgroundNamesRoundTrip | src/core/motion/MotionExporter.cpp:115-129 | every listed background format's name reads back as that format; any other format reads back as plain |
| MotionExport.ToolNamesRoundTrip | src/core/motion/MotionExporter.cpp:132-139 | pen, eraser and highlighter names read back as their tools; any other tool reads back as pen |
| MotionExport.ListedFromIsJoin | src/core/motion/MotionExporter.cpp:226-240 | the "comma unless last, newline after each" loop writes the items joined by ",\n" then a newline |
| MotionExport.PointTimestampIsRaw | src/core/motion/MotionExporter.cpp:229-230 | the `"t"` field of a point entry reads back as the sample's raw timestamp, with no normalisation |
| MotionExport.PointsInOrder | src/core/motion/MotionExporter.cpp:226-240 | the points array lists every sample in log order, separated by ",\n" |
| MotionExport.Selected | src/core/motion/MotionExporter.cpp:175-179 | every selected element is kept and comes from the input, every kept element of the input is selected, and no element is selected more often than it occurs |
| MotionExport.SelectedAppend | src/core/motion/MotionExporter.cpp:175-179 | selection keeps input order: selecting from two parts gives the first part's selection followed by the second's |
| MotionExport.SelectedSingle | src/core/motion/MotionExporter.cpp:175-179 | one element is selected exactly when it is kept |
| MotionExport.EmitSelectedIsJoin | src/core/motion/MotionExporter.cpp:173-183 | the `firstStroke` loop writes exactly the selected items joined by ",\n" |
| MotionExport.StrokesAreTheMotionStrokes | src/core/motion/MotionExporter.cpp:173-247 | a page's strokes array is the text of its motion-bearing strokes, across layers in order, separated by ",\n" |
| MotionExport.PagesFromIsListed | src/core/motion/MotionExporter.cpp:142-255 | with every page present, the page loop writes the page bodies with a comma after each but the last |
| MotionExport.PagesWellSeparated | src/core/motion/MotionExporter.cpp:251-254 | with every page present, the pages array is the bodies joined by ",\n" then a newline |
| MotionExport.NullLastPageLeavesComma | src/core/motion/MotionExporter.cpp:144-146 | a null last page after a present one leaves a comma before the closing bracket |
| MotionExport.WriteListed | src/core/motion/MotionExporter.cpp:226-240 | the loop appends exactly the listed text of its items |
| MotionExport.WriteDashesPart | src/core/motion/MotionExporter.cpp:208-221 | the writes after the `hasDashes` value append exactly `DashesPart`: a bare newline for a solid line, otherwise a `"dashes"` array of the dash lengths separated by ", " |
| MotionExport.WriteStroke | src/core/motion/MotionExporter.cpp:185-247 | the writes for one stroke append exactly `StrokeText` |
| MotionExport.WriteStrokeSlot | src/core/motion/MotionExporter.cpp:177-247 | one element of the stroke loop: a motion-bearing stroke appends its text, after ",\n" unless it is the first; `firstStroke` stays true only while no such stroke was seen |
| MotionExport.WriteStrokeStep | src/core/motion/MotionExporter.cpp:177-247 | after one element, what is written so far plus the text for the elements still to come equals what was written before plus the text for that element and the rest |
| MotionExport.WriteLayerStrokes | src/core/motion/MotionExporter.cpp:177-248 | the loop over one layer's elements appends what `EmitSelected` writes for them, so that the page's remaining text is unchanged |
| MotionExport.WriteStrokes | src/core/motion/MotionExporter.cpp:175-249 | the nested layer and element loops append exactly `StrokesText` |
| MotionExport.WritePage | src/core/motion/MotionExporter.cpp:148-250 | the writes for one present page append exactly `PageBody` |
| MotionExport.WritePageSlot | src/core/motion/MotionExporter.cpp:143-255 | one pass of the page loop: a null page appends nothing; a present page appends its body, a comma unless it is the last slot, and a newline |
| MotionExport.WritePages | src/core/motion/MotionExporter.cpp:142-255 | the page loop appends exactly `PagesFrom` of the document's pages |
| MotionExport.MetadataText | src/core/motion/MotionExporter.cpp:106-258 | the file opens with "{" and a newline, and always ends by closing the pages array and the object |
| MotionExport.WriteMetadata | src/core/motion/MotionExporter.cpp:106-258 | the file's whole content is `MetadataText` |
| MotionExport.MotionExporter.constructor | src/core/motion/MotionExporter.cpp:22-24 | the frame rate is 30, not exporting, and progress, frame count and total frames are 0 |
| MotionExport.MotionExporter.StartExport | src/core/motion/MotionExporter.cpp:28-292 | the frame rate defaults to 30 (MotionExporter.h:40). Returns true exactly when the export is idle, a document exists, the folder exists or is created, and some point is found. Each guard changes nothing. With no points, only the path, rate, progress and frame count change. On success, the frame total follows the formula, progress is 1, the frame count equals the total, and the file, when it opens, holds `MetadataText` |
| MotionExport.MotionExporter.Stop | src/core/motion/MotionExporter.cpp:294-299 | exporting becomes false and nothing else changes |
| MotionExport.MotionExporter.IsExporting | src/core/motion/MotionExporter.cpp:301 | the exporting flag |
| MotionExport.MotionExporter.GetProgress | src/core/motion/MotionExporter.cpp:303 | the progress field |
| MotionExport.MotionExporter.GetFrameCount | src/core/motion/MotionExporter.cpp:305 | the frame count field |
| ExportControl.Truncate | src/core/motion/MotionExportController.cpp:38-43 | `snprintf` into a 50-byte buffer keeps a prefix of at most 49 characters, and the whole text when it fits |
| ExportControl.FormattedName | src/core/motion/MotionExportController.cpp:41-42 | the formatted text starts with "motion_export_" and is never shorter than 33 characters, since every field is zero-padded to its width |
| ExportControl.FolderName | src/core/motion/MotionExportController.cpp:38-43 | the folder name never exceeds 49 characters |
| ExportControl.FolderNameRoundTrip | src/core/motion/MotionExportController.cpp:41-42 | for an in-range local time, the name is 33 characters and parses back to the same year, month, day, hour, minute and second |
| ExportControl.PathJoin | src/core/motion/MotionExportController.cpp:45 | the joined path starts with the folder, ends with the name, and adds at most one separator |
| ExportControl.MotionExportController.constructor | src/core/motion/MotionExportController.cpp:22-26 | the controller owns a new idle exporter over the document |
| ExportControl.MotionExportController.GetMotionExportFolder | src/core/motion/MotionExportController.cpp:75-85 | the configured folder when it is a directory, else the empty path |
| ExportControl.MotionExportController.StartExport | src/core/motion/MotionExportController.cpp:30-63 | returns true exactly when the exporter is idle, the folder is valid and the exporter succeeds. On the guard paths nothing changes. Otherwise the exporter is called with the folder joined to the timestamped name and the configured frame rate |
| ExportControl.MotionExportController.StopExport | src/core/motion/MotionExportController.cpp:65-71 | always returns true; the exporter is no longer exporting and nothing else changes |
| ExportControl.MotionExportController.IsExporting | src/core/motion/MotionExportController.cpp:73 | the exporter's flag |
| ExportControl.MotionExportController.GetProgress | src/core/motion/MotionExportController.cpp:87 | the exporter's progress |

## Left out

- Geometry is a parameter (`Erasing.Geometry`). This covers the stroke's intersection tests, `intersectWithPaddedBox` and the bounding-box test. These belong to `Stroke` and `ErasableStroke`, which are not part of this model.
- Fragments are not modelled: the surviving fragments computed by `ErasableStroke` and the fragment snapshot taken in `EraseUndoAction::finalize`. The model records the calls made on a stroke's erasable state and marks the action finalized.
- `Erasing.FinalizeOutcome`: the layer effect of `eraseUndoAction->finalize()` (EraseHandler.cpp:179), which swaps erased strokes for their fragments, is not modelled. The layer it states is the old layer plus the eraser stroke, and `Erasing.GestureLeavesEraserStroke` says the same.
- Double arithmetic is exact `real` arithmetic. The value passed to `gint` (EraseHandler.cpp:63-65) and the padded radius (:139-140) are computed without rounding, and the coefficients 0.4 and 0.01, which no double holds exactly, are exact. `Erasing.TruncToInt` truncates the exact value.
- The following are not modelled:
  - the redraw `Range` and `rerenderRange`;
  - document `lock`/`unlock`;
  - `g_warning`/`g_message`;
  - the error dialog in `getMotionExportFolder`.
  None of them affects the state modelled.
- The clocks are parameters: `g_get_monotonic_time` for the erase timestamp, and `time`/`localtime` for the controller's `LocalTime`.
- Real numbers are written through a parameter (`NumberText`), because the model has no floating point formatting. This covers x, y, pressure, widths, page size and dashes.
- `MotionExport.FileSystem` stands for the filesystem calls. Its three booleans are whether the output folder exists, whether `create_directories` succeeds and whether the metadata file opens. `is_directory` is the controller's `isDirectory` argument.
- The `README.txt` written by `startExport` is not modelled: it is fixed text with no bearing on the modelled state.
- `exportPageMotion`, `renderFrame` and the Python rendering script are left out. The first two are empty stubs; the script is not part of the core.
- The background `config` string is written as raw text with no JSON escaping, exactly as the source writes it.
- `MotionExport.Summarize`: the point total is an unbounded natural. A `size_t` sum that wraps past 2^64 is not modelled, because it would need 2^64 samples.
- `MotionExport.MotionExporter.StartExport`: `exporting` is set to true during the export and cleared before every return that set it. The contract states only the state at return, because the export runs synchronously.
- `Erasing.FinalizeOutcome`: when both undo handles are open, the delete handle is left open. This is weaker than "closes every open action", and it is the source's `else if`.
- `Erasing.EraseHandler.Erase`: the collaborators are held as fields of the handler: the layer's element list, the undo handler's action list and the strokes' erasable states. Aliasing between handlers that share a page is not modelled.
- Stroke defaults are chosen in `Erasing.NewEraserStroke`, and its contract states them: no fill (-1), round caps and no dashes for the eraser's stroke. `Stroke.h` is not part of this model.
- `MotionExport.MotionExporter.document`: the source holds a live `Document*` and reads its current contents when `startExport` runs. The model holds the document as a value, so the caller must keep this field current.
