/** The report's PDF export: the file name, and how the rendered report image is laid out over
    A4 pages. */
module PdfDownload {
  import opened JsString

  const FileSuffix: string := "_cost_report.pdf"
  /** A4 width and height in millimetres. */
  const PageWidth: real := 210.0
  const PageHeight: real := 297.0

  /** `${project_name.replace(/\s+/g, "_")}_cost_report.pdf`. */
  function FileName(projectName: string): (r: string)
    ensures |r| >= |FileSuffix| && r[|r| - |FileSuffix|..] == FileSuffix
  {
    ReplaceWhitespaceRuns(projectName, "_") + FileSuffix
  }

  /** The name part never contains white space, and a name without white space is kept. */
  lemma FileNameParts(projectName: string)
    ensures NoWhitespace(FileName(projectName)[..|FileName(projectName)| - |FileSuffix|])
    ensures NoWhitespace(projectName) ==> FileName(projectName) == projectName + FileSuffix
  {
    var part := ReplaceWhitespaceRuns(projectName, "_");
    assert FileName(projectName)[..|FileName(projectName)| - |FileSuffix|] == part;
    ReplaceRunsNoWhitespace(projectName, "_");
    if NoWhitespace(projectName) {
      ReplaceRunsIdentity(projectName, "_");
    }
  }

  /** `Math.ceil(h / 297)`, but at least 1: the least page count whose pages cover `h`. */
  function PageCount(h: real): (n: int)
    ensures n >= 1 && h <= PageHeight * n as real
    ensures n == 1 || PageHeight * (n - 1) as real < h
  {
    if h <= PageHeight then 1 else -((-h / PageHeight).Floor)
  }

  /** The image is scaled to the page width: `canvas.height * 210 / canvas.width`. */
  function ImageHeight(canvasWidth: real, canvasHeight: real): real
    requires canvasWidth > 0.0
  {
    canvasHeight * PageWidth / canvasWidth
  }

  /** The vertical offsets at which `handleDownload` places the image, one per page: the
      first page at 0 and each further page at `heightLeft - imgHeight`. */
  method Paginate(canvasWidth: real, canvasHeight: real) returns (imgHeight: real, positions: seq<real>)
    requires canvasWidth > 0.0
    ensures imgHeight == ImageHeight(canvasWidth, canvasHeight)
    ensures |positions| == PageCount(imgHeight)
    // Page k shows the image shifted up by k page heights.
    ensures forall k :: 0 <= k < |positions| ==> positions[k] == -PageHeight * k as real
  {
    imgHeight := canvasHeight * PageWidth / canvasWidth;
    var heightLeft := imgHeight;
    var position := 0.0;
    positions := [position];
    heightLeft := heightLeft - PageHeight;
    while heightLeft > 0.0
      invariant |positions| >= 1
      invariant heightLeft == imgHeight - PageHeight * |positions| as real
      invariant PageHeight * (|positions| - 1) as real < imgHeight || |positions| == 1
      invariant forall k :: 0 <= k < |positions| ==> positions[k] == -PageHeight * k as real
      decreases (heightLeft / PageHeight).Floor + 1
    {
      position := heightLeft - imgHeight;
      positions := positions + [position];
      heightLeft := heightLeft - PageHeight;
    }
    PageCountIs(imgHeight, |positions|);
  }

  /** A count `n` whose pages cover `h` while `n - 1` pages do not is the page count. */
  lemma PageCountIs(h: real, n: int)
    requires n >= 1 && h <= PageHeight * n as real
    requires n == 1 || PageHeight * (n - 1) as real < h
    ensures PageCount(h) == n
  {
  }
}
