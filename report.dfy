/**
 * The information file (`salvar_info_em_txt`): the lines written to
 * `<sanitised name>_info.txt`, in order — header, astrometric block, date,
 * downloaded images, suggested caption, chemical composition.
 *
 * The clock and the number formatting are parameters: the timestamp arrives
 * already rendered, and `Formats` renders distances with one decimal, with
 * none, and as Python's `str`. The composition service is a parameter too.
 */
module Report {
  import opened Wrappers
  import opened Catalog
  import opened FileNames
  import opened Astrometry
  import opened Composition

  /** Renderers for `{x:.1f}`, `{x:.0f}` and `{x}` of a distance. */
  datatype Formats = Formats(oneDecimal: real -> string, noDecimal: real -> string, plain: Option<real> -> string)

  /** One entry of `COMPOSICAO_GENERICA`: element, emission line, colour. */
  datatype Emission = Emission(element: string, line: string, colour: string)

  const GenericComposition: seq<Emission> := [
    Emission("Hidrogênio (Hα)", "656.3 nm", "vermelho"),
    Emission("Oxigênio duplamente ionizado [O III]", "495.9 nm e 500.7 nm", "verde-brilhante"),
    Emission("Hélio II", "468.6 nm", "azulado"),
    Emission("Nitrogênio ionizado [N II]", "658.4 nm", "vermelho-alaranjado")
  ]

  const NoAstroLine: string := "Dados astronômicos indisponíveis."
  const ImagesHeading: string := "Imagens baixadas:"
  const CaptionHeading: string := "Legenda científica sugerida para uso:"
  const CompositionHeading: string := "Composição química estimada:"

  /** The record has a distance in light-years that Python finds true. */
  predicate HasDistance(astro: Option<AstroRecord>) {
    astro.Some? && astro.value.distLy.Some? && astro.value.distLy.value != 0.0
  }

  function HeaderLine(name: string): string {
    "Nebulosa: " + name
  }

  function CoordinatesLine(a: AstroRecord): string {
    "Coordenadas: RA = " + a.ra + ", DEC = " + a.dec
  }

  function DistanceLine(a: AstroRecord, fmt: Formats): string
    requires a.distLy.Some?
  {
    "Distância estimada: " + fmt.oneDecimal(a.distLy.value) + " anos-luz (" + fmt.plain(a.distPc) + " pc)"
  }

  function DateLine(timestamp: string): string {
    "Data: " + timestamp
  }

  function CatalogueLine(value: string): string {
    "- " + value + " (extraída de catálogo real via VizieR)"
  }

  /** The lines of the astrometric block (lines 111-116). */
  function AstroLines(astro: Option<AstroRecord>, fmt: Formats): seq<string> {
    if astro.None? then [NoAstroLine]
    else
      var a := astro.value;
      [CoordinatesLine(a)] + (if HasDistance(astro) then [DistanceLine(a, fmt)] else [])
  }

  /** The caption line of lines 124-128. */
  function CaptionLine(name: string, astro: Option<AstroRecord>, fmt: Formats): string {
    if HasDistance(astro) then
      var a := astro.value;
      "Imagem da " + name + ", localizada a aproximadamente " + fmt.noDecimal(a.distLy.value)
        + " anos-luz da Terra. " + "RA: " + a.ra + " | DEC: " + a.dec + ". Crédito: NASA."
    else
      "Imagem da " + name + ". Dados incompletos. Crédito: NASA."
  }

  function ImageLine(file: string): string {
    "- " + file
  }

  /** One `- <file>` line per downloaded file, in order. */
  function ImageLines(files: seq<string>): (ls: seq<string>)
    ensures |ls| == |files|
    ensures forall k :: 0 <= k < |files| ==> ls[k] == ImageLine(files[k])
  {
    if files == [] then [] else ImageLines(files[..|files| - 1]) + [ImageLine(files[|files| - 1])]
  }

  function EmissionLine(e: Emission): string {
    "- " + e.element + " (linha em " + e.line + ") - tonalidade: " + e.colour
  }

  /** One line per generic emission, in order. */
  function EmissionLines(es: seq<Emission>): (ls: seq<string>)
    ensures |ls| == |es|
    ensures forall k :: 0 <= k < |es| ==> ls[k] == EmissionLine(es[k])
  {
    if es == [] then [] else EmissionLines(es[..|es| - 1]) + [EmissionLine(es[|es| - 1])]
  }

  /** The composition block (lines 131-135): the catalogue value when there
      is one, the four generic emission lines otherwise. */
  function CompositionLines(composition: Option<string>): seq<string> {
    if composition.Some? then [CatalogueLine(composition.value)]
    else EmissionLines(GenericComposition)
  }

  /** Everything before the image lines: header, astrometric block, date, a
      blank line and the image heading. */
  function Preamble(name: string, astro: Option<AstroRecord>, timestamp: string, fmt: Formats): seq<string> {
    [HeaderLine(name)] + AstroLines(astro, fmt) + [DateLine(timestamp), "", ImagesHeading]
  }

  /** Everything after the image lines: the caption and the composition. */
  function Closing(name: string, astro: Option<AstroRecord>, composition: Option<string>, fmt: Formats): seq<string> {
    CaptionLines(name, astro, fmt) + CompositionLines(composition)
  }

  /** The caption section and the composition heading. */
  function CaptionLines(name: string, astro: Option<AstroRecord>, fmt: Formats): seq<string> {
    ["", CaptionHeading, CaptionLine(name, astro, fmt), "", CompositionHeading]
  }

  /** The whole file, line by line: it opens with the name of the nebula,
      and besides its astrometric lines and one line per file it has nine
      fixed lines and one composition line, or four without a catalogue value. */
  function ReportLines(name: string, astro: Option<AstroRecord>, timestamp: string,
                       files: seq<string>, composition: Option<string>, fmt: Formats): (ls: seq<string>)
    ensures |ls| == |AstroLines(astro, fmt)| + |files| + 9 + (if composition.Some? then 1 else 4)
    ensures ls[0] == "Nebulosa: " + name
  {
    Preamble(name, astro, timestamp, fmt) + ImageLines(files) + Closing(name, astro, composition, fmt)
  }

  /** The preamble: the header line, the astrometric block (one line without
      data, one or two with), the date, a blank line, the image heading. */
  lemma PreambleLayout(name: string, astro: Option<AstroRecord>, timestamp: string, fmt: Formats)
    ensures var p := Preamble(name, astro, timestamp, fmt);
      var a := |AstroLines(astro, fmt)|;
      && (astro.None? ==> a == 1) && (astro.Some? ==> a == if HasDistance(astro) then 2 else 1)
      && |p| == a + 4
      && p[0] == "Nebulosa: " + name
      && p[1..1 + a] == AstroLines(astro, fmt)
      && p[1 + a] == "Data: " + timestamp
      && p[2 + a] == "" && p[3 + a] == ImagesHeading
  {
  }

  /** The closing part: blank line, caption heading, caption, blank line,
      composition heading, composition block. */
  lemma ClosingLayout(name: string, astro: Option<AstroRecord>, composition: Option<string>, fmt: Formats)
    ensures var c := Closing(name, astro, composition, fmt);
      && |c| == 5 + |CompositionLines(composition)|
      && c[0] == "" && c[1] == CaptionHeading && c[2] == CaptionLine(name, astro, fmt)
      && c[3] == "" && c[4] == CompositionHeading
      && c[5..] == CompositionLines(composition)
  {
  }

  /** The file is its four sections in order, grouped as they are written. */
  lemma ReportSections(name: string, astro: Option<AstroRecord>, timestamp: string,
                       files: seq<string>, composition: Option<string>, fmt: Formats)
    ensures ReportLines(name, astro, timestamp, files, composition, fmt)
      == Preamble(name, astro, timestamp, fmt) + ImageLines(files)
         + CaptionLines(name, astro, fmt) + CompositionLines(composition)
  {
    var front := Preamble(name, astro, timestamp, fmt) + ImageLines(files);
    assert front + (CaptionLines(name, astro, fmt) + CompositionLines(composition))
        == front + CaptionLines(name, astro, fmt) + CompositionLines(composition);
  }

  /** Where the image lines start. */
  function ImagesStart(astro: Option<AstroRecord>, fmt: Formats): nat {
    |AstroLines(astro, fmt)| + 4
  }

  /** Without astrometric data the second line says so, the date follows it
      directly, and the caption says the data are incomplete. */
  lemma ReportWithoutAstrometry(name: string, timestamp: string,
                                files: seq<string>, composition: Option<string>, fmt: Formats)
    ensures var ls := ReportLines(name, None, timestamp, files, composition, fmt);
      |ls| > 7 + |files|
      && ls[1] == NoAstroLine && ls[2] == "Data: " + timestamp
      && ls[7 + |files|] == "Imagem da " + name + ". Dados incompletos. Crédito: NASA."
  {
    PreambleLayout(name, None, timestamp, fmt);
    ClosingLayout(name, None, composition, fmt);
    var p := Preamble(name, None, timestamp, fmt);
    var c := Closing(name, None, composition, fmt);
    var ls := ReportLines(name, None, timestamp, files, composition, fmt);
    assert ls[1] == p[1] && ls[2] == p[2];
    assert ls[7 + |files|] == c[2];
  }

  /** The image section lists every downloaded file, once and in order,
      between its heading and the blank line before the caption. */
  lemma ReportListsImages(name: string, astro: Option<AstroRecord>, timestamp: string,
                          files: seq<string>, composition: Option<string>, fmt: Formats)
    ensures var ls := ReportLines(name, astro, timestamp, files, composition, fmt);
      var i := ImagesStart(astro, fmt);
      && i + |files| < |ls|
      && ls[i - 1] == ImagesHeading
      && (forall k :: 0 <= k < |files| ==> ls[i + k] == "- " + files[k])
      && ls[i + |files|] == ""
  {
    PreambleLayout(name, astro, timestamp, fmt);
    ClosingLayout(name, astro, composition, fmt);
    var p := Preamble(name, astro, timestamp, fmt);
    var im := ImageLines(files);
    var c := Closing(name, astro, composition, fmt);
    var ls := ReportLines(name, astro, timestamp, files, composition, fmt);
    var i := ImagesStart(astro, fmt);
    assert ls[i - 1] == p[i - 1];
    forall k | 0 <= k < |files|
      ensures ls[i + k] == "- " + files[k]
    {
      assert ls[i + k] == im[k];
    }
    assert ls[i + |files|] == c[0];
  }

  /** With a distance Python finds true, the line after the caption heading
      gives that distance, rounded to whole light-years, and the coordinates. */
  lemma CaptionWithDistance(name: string, astro: Option<AstroRecord>, timestamp: string,
                            files: seq<string>, composition: Option<string>, fmt: Formats)
    requires HasDistance(astro)
    ensures var ls := ReportLines(name, astro, timestamp, files, composition, fmt);
      var i := ImagesStart(astro, fmt) + |files|;
      && i + 2 < |ls|
      && ls[i + 1] == CaptionHeading
      && ls[i + 2] == "Imagem da " + name + ", localizada a aproximadamente "
           + fmt.noDecimal(astro.value.distLy.value) + " anos-luz da Terra. RA: "
           + astro.value.ra + " | DEC: " + astro.value.dec + ". Crédito: NASA."
  {
    PreambleLayout(name, astro, timestamp, fmt);
    ClosingLayout(name, astro, composition, fmt);
    var c := Closing(name, astro, composition, fmt);
    var ls := ReportLines(name, astro, timestamp, files, composition, fmt);
    var i := ImagesStart(astro, fmt) + |files|;
    assert ls[i + 1] == c[1] && ls[i + 2] == c[2];
  }

  /** Without a catalogue value the file ends with the composition heading
      and exactly the four generic emission lines, in the order of
      `COMPOSICAO_GENERICA`; with one, it ends with the heading and that single
      value. */
  lemma ReportComposition(name: string, astro: Option<AstroRecord>, timestamp: string,
                          files: seq<string>, composition: Option<string>, fmt: Formats)
    ensures var ls := ReportLines(name, astro, timestamp, files, composition, fmt);
      var n := |ls|;
      composition.None? ==>
        && n >= 5
        && ls[n - 5] == CompositionHeading
        && ls[n - 4..] == EmissionLines(GenericComposition)
    ensures var ls := ReportLines(name, astro, timestamp, files, composition, fmt);
      var n := |ls|;
      composition.Some? ==>
        && n >= 2
        && ls[n - 2] == CompositionHeading
        && ls[n - 1] == "- " + composition.value + " (extraída de catálogo real via VizieR)"
  {
    ClosingLayout(name, astro, composition, fmt);
    var c := Closing(name, astro, composition, fmt);
    var ls := ReportLines(name, astro, timestamp, files, composition, fmt);
    var front := Preamble(name, astro, timestamp, fmt) + ImageLines(files);
    assert ls == front + c;
    var n := |ls|;
    var m := |front|;
    assert ls[m..] == c;
    if composition.None? {
      assert |c| == 9;
      assert ls[n - 5] == c[4];
      assert ls[n - 4..] == c[5..];
    } else {
      assert |c| == 6;
      assert ls[n - 2] == c[4];
      assert ls[n - 1] == c[5..][0];
    }
  }

  /** Lines 110-119: the header, the astrometric block, the date and the
      image heading, written one after the other. */
  method WritePreamble(name: string, astro: Option<AstroRecord>, timestamp: string, fmt: Formats)
    returns (lines: seq<string>)
    ensures lines == Preamble(name, astro, timestamp, fmt)
  {
    lines := [HeaderLine(name)];
    if astro.Some? {
      var a := astro.value;
      lines := lines + [CoordinatesLine(a)];
      if a.distLy.Some? && a.distLy.value != 0.0 {
        lines := lines + [DistanceLine(a, fmt)];
      }
    } else {
      lines := lines + [NoAstroLine];
    }
    lines := lines + [DateLine(timestamp)];
    lines := lines + ["", ImagesHeading];
  }

  /** Lines 120-121: one line appended per downloaded file. */
  method WriteImages(before: seq<string>, files: seq<string>) returns (lines: seq<string>)
    ensures lines == before + ImageLines(files)
  {
    lines := before;
    var k := 0;
    while k < |files|
      invariant 0 <= k <= |files|
      invariant lines == before + ImageLines(files[..k])
    {
      assert files[..k + 1][..k] == files[..k];
      lines := lines + [ImageLine(files[k])];
      k := k + 1;
    }
    assert files[..k] == files;
  }

  /** Lines 123-130: the caption section and the composition heading. */
  method WriteCaption(before: seq<string>, name: string, astro: Option<AstroRecord>, fmt: Formats)
    returns (lines: seq<string>)
    ensures lines == before + CaptionLines(name, astro, fmt)
  {
    lines := before + ["", CaptionHeading, CaptionLine(name, astro, fmt)];
    lines := lines + ["", CompositionHeading];
  }

  /** Lines 131-135: the catalogue value or, without one, the generic
      emission lines one by one. */
  method WriteComposition(before: seq<string>, composition: Option<string>)
    returns (lines: seq<string>)
    ensures lines == before + CompositionLines(composition)
  {
    lines := before;
    if composition.Some? {
      lines := lines + [CatalogueLine(composition.value)];
    } else {
      var g := 0;
      while g < |GenericComposition|
        invariant 0 <= g <= |GenericComposition|
        invariant lines == before + EmissionLines(GenericComposition[..g])
      {
        assert GenericComposition[..g + 1][..g] == GenericComposition[..g];
        lines := lines + [EmissionLine(GenericComposition[g])];
        g := g + 1;
      }
      assert GenericComposition[..g] == GenericComposition;
    }
  }

  /** `salvar_info_em_txt(name, astro, files)`: queries the composition of the
      resolved identifier, then writes the file section by section. Returns
      the file name and the lines written. */
  method WriteReport(name: string, astro: Option<AstroRecord>, files: seq<string>,
                     vizier: string -> VizierReply, timestamp: string, fmt: Formats)
    returns (fileName: string, lines: seq<string>)
    ensures fileName == ReportFileName(name)
    ensures lines == ReportLines(name, astro, timestamp, files, CompositionOf(vizier(ResolveName(name))), fmt)
  {
    var id := ResolveName(name);
    fileName := ReportFileName(name);
    var composition := ScanComposition(vizier(id));
    lines := WritePreamble(name, astro, timestamp, fmt);
    lines := WriteImages(lines, files);
    lines := WriteCaption(lines, name, astro, fmt);
    lines := WriteComposition(lines, composition);
    ReportSections(name, astro, timestamp, files, composition, fmt);
  }
}
