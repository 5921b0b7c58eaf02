/**
 * The motion export controller: checks the configured export folder, names
 * a time-stamped subfolder for the export, and drives the exporter.
 */
module ExportControl {
  import opened Wrappers
  import opened Elements
  import opened Decimal
  import MotionExport

  // ---------------------------------------------------------------------------
  // The subfolder name

  /** The fields of the `struct tm` that `localtime` yields, as the C library stores them. */
  datatype LocalTime = LocalTime(year: int, month: int, day: int, hour: int, minute: int, second: int)

  const FOLDER_PREFIX: string := "motion_export_"

  /** `snprintf` into a buffer of `size` bytes keeps at most `size - 1` characters. */
  function Truncate(s: string, size: nat): (r: string)
    requires size >= 1
    ensures |r| <= size - 1 && |r| <= |s| && r == s[..|r|]
    ensures |s| < size ==> r == s
  {
    if |s| < size then s else s[..size - 1]
  }

  /** The full text of the format "motion_export_%04d-%02d-%02d_%02d-%02d-%02d". */
  function FormattedName(t: LocalTime): (r: string)
    ensures |r| >= 33 && r[..14] == FOLDER_PREFIX
  {
    FOLDER_PREFIX + PrintfPadded(t.year + 1900, 4) + "-" + PrintfPadded(t.month + 1, 2)
      + "-" + PrintfPadded(t.day, 2) + "_" + PrintfPadded(t.hour, 2)
      + "-" + PrintfPadded(t.minute, 2) + "-" + PrintfPadded(t.second, 2)
  }

  /** The subfolder name: the formatted text as it fits a 50-byte buffer. */
  function FolderName(t: LocalTime): (r: string)
    ensures |r| <= 49
  {
    Truncate(FormattedName(t), 50)
  }

  /** Every field fits its width: a year of at most four digits, the others of at most two. */
  predicate InRange(t: LocalTime) {
    0 <= t.year + 1900 <= 9999 && 0 <= t.month + 1 <= 99 && 0 <= t.day <= 99
      && 0 <= t.hour <= 99 && 0 <= t.minute <= 99 && 0 <= t.second <= 99
  }

  /** Reads a folder name back into the time fields it was made from. */
  function ParseFolderName(s: string): Option<LocalTime> {
    if |s| == 33 && s[..14] == FOLDER_PREFIX
       && s[18] == '-' && s[21] == '-' && s[24] == '_' && s[27] == '-' && s[30] == '-'
       && AllDigits(s[14..18]) && AllDigits(s[19..21]) && AllDigits(s[22..24])
       && AllDigits(s[25..27]) && AllDigits(s[28..30]) && AllDigits(s[31..33])
    then Some(LocalTime(DecimalValue(s[14..18]) - 1900, DecimalValue(s[19..21]) - 1, DecimalValue(s[22..24]),
                        DecimalValue(s[25..27]), DecimalValue(s[28..30]), DecimalValue(s[31..33])))
    else None
  }

  /** Where each field lands in the concatenated name. */
  lemma NameLayout(p: string, y: string, mo: string, d: string, h: string, mi: string, se: string)
    requires |p| == 14 && |y| == 4 && |mo| == 2 && |d| == 2 && |h| == 2 && |mi| == 2 && |se| == 2
    ensures var s := p + y + "-" + mo + "-" + d + "_" + h + "-" + mi + "-" + se;
      |s| == 33 && s[..14] == p && s[14..18] == y && s[18] == '-' && s[19..21] == mo && s[21] == '-'
      && s[22..24] == d && s[24] == '_' && s[25..27] == h && s[27] == '-' && s[28..30] == mi
      && s[30] == '-' && s[31..33] == se
  {
    var a1 := p + y;
    var a2 := a1 + "-";
    var a3 := a2 + mo;
    var a4 := a3 + "-";
    var a5 := a4 + d;
    var a6 := a5 + "_";
    var a7 := a6 + h;
    var a8 := a7 + "-";
    var a9 := a8 + mi;
    var a10 := a9 + "-";
    var s := a10 + se;
    SliceOfTail(a10, se);
    SliceOfTail(a8, mi);
    SliceInHead(a9, "-", 28, 30);
    SliceInHead(a10, se, 28, 30);
    SliceOfTail(a6, h);
    SliceInHead(a7, "-", 25, 27);
    SliceInHead(a8, mi, 25, 27);
    SliceInHead(a9, "-", 25, 27);
    SliceInHead(a10, se, 25, 27);
    SliceOfTail(a4, d);
    SliceInHead(a5, "_", 22, 24);
    SliceInHead(a6, h, 22, 24);
    SliceInHead(a7, "-", 22, 24);
    SliceInHead(a8, mi, 22, 24);
    SliceInHead(a9, "-", 22, 24);
    SliceInHead(a10, se, 22, 24);
    SliceOfTail(a2, mo);
    SliceInHead(a3, "-", 19, 21);
    SliceInHead(a4, d, 19, 21);
    SliceInHead(a5, "_", 19, 21);
    SliceInHead(a6, h, 19, 21);
    SliceInHead(a7, "-", 19, 21);
    SliceInHead(a8, mi, 19, 21);
    SliceInHead(a9, "-", 19, 21);
    SliceInHead(a10, se, 19, 21);
    SliceInHead(a2, mo, 0, 19);
    SliceInHead(a4, d, 0, 22);
    SliceInHead(a6, h, 0, 25);
    SliceInHead(a8, mi, 0, 28);
    SliceInHead(a10, se, 0, 31);
    assert s[..19] == a2 && a2[..18] == a1 && s[..18] == a1[..18];
  }

  /** A slice that ends within the head of a concatenation is a slice of the head. */
  lemma SliceInHead(a: string, b: string, i: nat, j: nat)
    requires i <= j <= |a|
    ensures (a + b)[i..j] == a[i..j]
  {
  }

  /** The tail of a concatenation sits right after the head. */
  lemma SliceOfTail(a: string, b: string)
    ensures (a + b)[|a|..|a| + |b|] == b
  {
  }

  /**
   * For in-range fields the name is 33 characters, nothing is cut off, and
   * it reads back to the same time fields.
   */
  lemma FolderNameRoundTrip(t: LocalTime)
    requires InRange(t)
    ensures |FolderName(t)| == 33
    ensures ParseFolderName(FolderName(t)) == Some(t)
  {
    var y := PrintfPadded(t.year + 1900, 4);
    var mo := PrintfPadded(t.month + 1, 2);
    var d := PrintfPadded(t.day, 2);
    var h := PrintfPadded(t.hour, 2);
    var mi := PrintfPadded(t.minute, 2);
    var se := PrintfPadded(t.second, 2);
    assert Pow10(4) == 10000 && Pow10(2) == 100;
    PaddedFits(t.year + 1900, 4);
    PaddedFits(t.month + 1, 2);
    PaddedFits(t.day, 2);
    PaddedFits(t.hour, 2);
    PaddedFits(t.minute, 2);
    PaddedFits(t.second, 2);
    NameLayout(FOLDER_PREFIX, y, mo, d, h, mi, se);
    assert FormattedName(t) == FOLDER_PREFIX + y + "-" + mo + "-" + d + "_" + h + "-" + mi + "-" + se;
  }

  /** `path / name` for a relative `name`: one separator between the two. */
  function PathJoin(folder: string, name: string): (r: string)
    ensures folder != [] ==> |folder| + |name| <= |r| <= |folder| + |name| + 1
    ensures folder != [] ==> r[..|folder|] == folder && r[|r| - |name|..] == name
  {
    if folder == [] then name
    else if folder[|folder| - 1] == '/' then folder + name
    else folder + "/" + name
  }

  // ---------------------------------------------------------------------------
  // The controller

  class MotionExportController {
    const exporter: MotionExport.MotionExporter
    /** The export folder and frame rate from the settings. */
    var motionExportFolder: string
    var motionExportFrameRate: int

    constructor (document: Option<Document>, motionExportFolder: string, motionExportFrameRate: int)
      ensures fresh(exporter)
      ensures exporter.document == document && !exporter.exporting
      ensures this.motionExportFolder == motionExportFolder && this.motionExportFrameRate == motionExportFrameRate
    {
      exporter := new MotionExport.MotionExporter(document);
      this.motionExportFolder := motionExportFolder;
      this.motionExportFrameRate := motionExportFrameRate;
    }

    /** The configured folder when it is a directory; the empty path otherwise. */
    function GetMotionExportFolder(isDirectory: bool): (r: string)
      reads this
      ensures isDirectory ==> r == motionExportFolder
      ensures !isDirectory ==> r == []
    {
      if isDirectory then motionExportFolder else []
    }

    method StartExport(isDirectory: bool, now: LocalTime, fs: MotionExport.FileSystem, num: MotionExport.NumberText)
      returns (ok: bool)
      modifies exporter
      ensures ok == (!old(exporter.exporting) && isDirectory && motionExportFolder != []
                     && MotionExport.ExportSucceeds(false, old(exporter.document), fs))
      ensures exporter.exporting == old(exporter.exporting)
      // already exporting, or no usable folder: the exporter is not called
      ensures old(exporter.exporting) || !isDirectory || motionExportFolder == [] ==>
        unchanged(exporter)
      // otherwise the exporter gets the joined path and the configured frame rate
      ensures !old(exporter.exporting) && isDirectory && motionExportFolder != []
              && exporter.document.Some? && (fs.outputExists || fs.createSucceeds) ==>
        exporter.outputPath == PathJoin(motionExportFolder, FolderName(now))
        && exporter.frameRate == motionExportFrameRate
    {
      if !exporter.exporting {
        var exportFolder := GetMotionExportFolder(isDirectory);
        if exportFolder == [] {
          return false;
        }
        var folderName := FolderName(now);
        var outputPath := PathJoin(exportFolder, folderName);
        var frameRate := motionExportFrameRate;
        var success := exporter.StartExport(outputPath, fs, num, frameRate);
        if !success {
          return false;
        }
        return true;
      }
      return false;
    }

    method StopExport() returns (r: bool)
      modifies exporter
      ensures r
      ensures !exporter.exporting
      ensures exporter.document == old(exporter.document) && exporter.outputPath == old(exporter.outputPath)
      ensures exporter.frameRate == old(exporter.frameRate) && exporter.progress == old(exporter.progress)
      ensures exporter.frameCount == old(exporter.frameCount) && exporter.totalFrames == old(exporter.totalFrames)
      ensures exporter.metadata == old(exporter.metadata)
    {
      if exporter.IsExporting() {
        exporter.Stop();
      }
      return true;
    }

    function IsExporting(): (r: bool)
      reads this, exporter
      ensures r <==> exporter.exporting
    {
      exporter.IsExporting()
    }

    function GetProgress(): (r: real)
      reads this, exporter
      ensures r == exporter.progress
    {
      exporter.GetProgress()
    }
  }
}
