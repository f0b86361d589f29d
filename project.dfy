/** A project: an ordered collection of floor plans rendered together. */
module Projects {
  import opened Results
  import opened FloorPlans

  /** matplotlib's `dpi` argument: the figure's own setting or a number. */
  datatype Dpi = FigureDpi | Dots(value: real)

  /** One `savefig` call: which figure was written, where, at which dpi. */
  datatype Export = Export(directory: string, name: string, figure: FloorPlan, dpi: Dpi)

  /** One page of a multi-page PDF: the figure saved on it and its dpi. */
  datatype PdfPage = PdfPage(figure: FloorPlan, dpi: Dpi)

  /** A multi-page PDF: one page per saved figure, in order. */
  datatype PdfDocument = PdfDocument(path: string, pages: seq<PdfPage>)

  function Digit(d: nat): char
    requires d < 10
  {
    "0123456789"[d]
  }

  function DigitValue(c: char): nat
    requires '0' <= c <= '9'
  {
    (c - '0') as nat
  }

  predicate IsDecimal(s: string) {
    |s| >= 1 && forall k | 0 <= k < |s| :: '0' <= s[k] <= '9'
  }

  /** Python's `str` of a natural number: its decimal digits, no leading zero. */
  function DecimalString(n: nat): (s: string)
    ensures IsDecimal(s)
    ensures s[0] == '0' <==> n == 0
    decreases n
  {
    if n < 10 then [Digit(n)] else DecimalString(n / 10) + [Digit(n % 10)]
  }

  function DecimalValue(s: string): nat
    requires IsDecimal(s)
    decreases |s|
  {
    var last := DigitValue(s[|s| - 1]);
    if |s| == 1 then last else 10 * DecimalValue(s[..|s| - 1]) + last
  }

  /** Reading the digits back gives the number. */
  lemma {:induction false} DecimalRoundTrip(n: nat)
    ensures DecimalValue(DecimalString(n)) == n
    decreases n
  {
    var s := DecimalString(n);
    if n >= 10 {
      DecimalRoundTrip(n / 10);
      assert s[..|s| - 1] == DecimalString(n / 10);
      assert DigitValue(s[|s| - 1]) == n % 10;
    } else {
      assert DigitValue(s[0]) == n;
    }
  }

  predicate EndsWith(s: string, suffix: string) {
    |suffix| <= |s| && s[|s| - |suffix|..] == suffix
  }

  /** Python truthiness of an optional title: present and non-empty. */
  predicate Truthy(title: Option<string>) {
    title.Some? && title.value != ""
  }

  /** The PNG file name of the plan at `index`: its title if it has one,
      else "<index>.png"; ".png" is appended unless the name already ends
      in "png" (with or without the dot). */
  function PngName(title: Option<string>, index: nat): (name: string)
    ensures EndsWith(name, "png")
    ensures Truthy(title) ==>
      name == if EndsWith(title.value, "png") then title.value else title.value + ".png"
    ensures !Truthy(title) ==> name == DecimalString(index) + ".png"
  {
    var base := if Truthy(title) then title.value else DecimalString(index) + ".png";
    assert EndsWith(base + ".png", "png") by {
      assert (base + ".png")[|base + ".png"| - 3..] == "png";
    }
    if EndsWith(base, "png") then base else base + ".png"
  }

  /** Naming a file after a name the rule produced gives that name back. */
  lemma PngNameIdempotent(title: Option<string>, index: nat, other: nat)
    ensures PngName(Some(PngName(title, index)), other) == PngName(title, index)
  {
    var name := PngName(title, index);
    assert name != "" by { assert EndsWith(name, "png"); }
  }

  /** The suffix test looks for "png", not ".png": a title ending in "png"
      without the dot is used as it is. */
  lemma PngSuffixWithoutDot()
    ensures PngName(Some("floorpng"), 0) == "floorpng"
    ensures PngName(Some("floor"), 0) == "floor.png"
    ensures PngName(None, 12) == "12.png"
  {
    assert EndsWith("floorpng", "png") by { assert "floorpng"[5..] == "png"; }
    assert !EndsWith("floor", "png") by { assert "floor"[2..] != "png"; }
    assert DecimalString(12) == "12" by {
      assert DecimalString(1) == "1";
    }
  }

  class Project {
    var floorPlans: seq<FloorPlan>
    var dpi: Dpi

    constructor(floorPlans: seq<FloorPlan>, dpi: Dpi := FigureDpi)
      ensures this.floorPlans == floorPlans && this.dpi == dpi
    {
      this.floorPlans := floorPlans;
      this.dpi := dpi;
    }

    /** One PDF page per plan, in list order, all at the stored dpi. */
    method RenderToPdf(outputPath: string) returns (pdf: PdfDocument)
      ensures pdf.path == outputPath && |pdf.pages| == |floorPlans|
      ensures forall i | 0 <= i < |floorPlans| :: pdf.pages[i].figure == floorPlans[i] && pdf.pages[i].dpi == dpi
    {
      var pages: seq<PdfPage> := [];
      for i := 0 to |floorPlans|
        invariant |pages| == i
        invariant forall j | 0 <= j < i :: pages[j].figure == floorPlans[j] && pages[j].dpi == dpi
      {
        pages := pages + [PdfPage(floorPlans[i], dpi)];
      }
      pdf := PdfDocument(outputPath, pages);
    }

    /** One PNG file per plan, in list order, named by `PngName`, all at the
        stored dpi. */
    method RenderToPng(outputDir: string) returns (files: seq<Export>)
      ensures |files| == |floorPlans|
      ensures forall i | 0 <= i < |floorPlans| ::
        files[i] == Export(outputDir, PngName(floorPlans[i].title, i), floorPlans[i], dpi)
      ensures forall i | 0 <= i < |files| :: EndsWith(files[i].name, "png")
    {
      files := [];
      for i := 0 to |floorPlans|
        invariant |files| == i
        invariant forall j | 0 <= j < i ::
          files[j] == Export(outputDir, PngName(floorPlans[j].title, j), floorPlans[j], dpi)
      {
        var title := PngName(floorPlans[i].title, i);
        files := files + [Export(outputDir, title, floorPlans[i], dpi)];
      }
    }
  }
}
