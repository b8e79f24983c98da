/**
 * One run of the fetcher (`main`): choose a nebula, look up its astrometry,
 * search the image API with at most ten results, download the selected
 * images and write the information file. Without any image result the run
 * stops before the selection and no file is written.
 *
 * The console and the three remote services are parameters: the answers to
 * the menu, the selection line, and one function per service.
 */
module Session {
  import opened Wrappers
  import opened Catalog
  import opened FileNames
  import opened Astrometry
  import opened Composition
  import opened ImageSearch
  import opened Selection
  import opened Menu
  import opened Report

  /** The three remote services: SIMBAD, the NASA image API and VizieR. */
  datatype Services = Services(
    simbad: string -> SimbadReply,
    api: SearchRequest -> SearchReply,
    vizier: string -> VizierReply)

  /** How a run ends: the menu answers ran out, the search found nothing, or
      the selected images were downloaded and the report written. */
  datatype Outcome =
    | NoNebula
    | NoImages(nebula: string, astro: Option<AstroRecord>)
    | Completed(nebula: string, astro: Option<AstroRecord>, images: seq<ImageCandidate>,
                downloads: seq<Download>, reportName: string, report: seq<string>)

  /** The `max_results` passed on line 192. */
  const MaxResults: int := 10

  /** The file names recorded for the downloads, in order. */
  function FileNamesOf(downloads: seq<Download>): (files: seq<string>)
    ensures |files| == |downloads|
    ensures forall k :: 0 <= k < |downloads| ==> files[k] == downloads[k].fileName
  {
    if downloads == [] then []
    else FileNamesOf(downloads[..|downloads| - 1]) + [downloads[|downloads| - 1].fileName]
  }

  /** The end of a run, given the chosen name, its astrometric record, the
      search results and the composition the catalogue would give: nothing
      more without results, otherwise the downloads and the report. */
  function Finish(nebula: string, astro: Option<AstroRecord>, images: seq<ImageCandidate>,
                  selection: string, composition: Option<string>,
                  timestamp: string, fmt: Formats): Outcome
  {
    if images == [] then NoImages(nebula, astro)
    else
      var downloads := Planned(images, SelectionIndices(selection));
      Completed(nebula, astro, images, downloads, ReportFileName(nebula),
                ReportLines(nebula, astro, timestamp, FileNamesOf(downloads), composition, fmt))
  }

  /** The run once `nebula` is chosen: lookup, search, and, when the search
      found something, the downloads and the report. */
  function RunFor(nebula: string, selection: string, services: Services,
                  timestamp: string, fmt: Formats): Outcome
  {
    Finish(nebula, LookupAstrometry(nebula, services.simbad),
           SearchResults(services.api(RequestFor(nebula)), MaxResults),
           selection, CompositionOf(services.vizier(ResolveName(nebula))), timestamp, fmt)
  }

  /** The run as a whole. It ends without a nebula exactly when the menu
      answers run out, and the report is written exactly when a nebula was
      chosen and the search found at least one image. */
  function SessionOf(answers: seq<string>, selection: string, services: Services,
                     timestamp: string, fmt: Formats): (o: Outcome)
    ensures o.NoNebula? <==> ChooseNebula(answers).None?
    ensures o.Completed? <==>
      ChooseNebula(answers).Some? &&
      SearchResults(services.api(RequestFor(ChooseNebula(answers).value)), MaxResults) != []
  {
    match ChooseNebula(answers)
    case None => NoNebula
    case Some(nebula) => RunFor(nebula, selection, services, timestamp, fmt)
  }

  /** `main()`: the steps of lines 179-217 in order. */
  method RunSession(answers: seq<string>, selection: string, services: Services,
                    timestamp: string, fmt: Formats)
    returns (outcome: Outcome)
    ensures outcome == SessionOf(answers, selection, services, timestamp, fmt)
  {
    var chosen := ChooseNebula(answers);
    if chosen.None? {
      return NoNebula;
    }
    var nebula := chosen.value;
    var astro := LookupAstrometry(nebula, services.simbad);
    var images := SearchImages(nebula, MaxResults, services.api);
    if images == [] {
      return NoImages(nebula, astro);
    }
    var indices := SelectionIndices(selection);
    var downloads, files := DownloadChosen(images, indices);
    assert files == FileNamesOf(downloads);
    var reportName, report := WriteReport(nebula, astro, files, services.vizier, timestamp, fmt);
    outcome := Completed(nebula, astro, images, downloads, reportName, report);
  }

  /** A run whose search found something completes: it searched with the
      chosen name (not its catalogue identifier), kept at most ten results,
      and names the report after the chosen name. */
  lemma CompletedSearch(nebula: string, selection: string, services: Services,
                        timestamp: string, fmt: Formats)
    requires SearchResults(services.api(RequestFor(nebula)), MaxResults) != []
    ensures var o := RunFor(nebula, selection, services, timestamp, fmt);
      && o.Completed? && o.nebula == nebula
      && o.images == SearchResults(services.api(RequestFor(nebula)), MaxResults)
      && 0 < |o.images| <= MaxResults
      && o.reportName == Sanitize(nebula) + "_info.txt"
  {
    SearchBoundedAndOrdered(services.api(RequestFor(nebula)), MaxResults);
  }

  /** A run that found results downloads once per selected index that falls
      inside the result list. */
  lemma CompletedDownloadCount(nebula: string, astro: Option<AstroRecord>, images: seq<ImageCandidate>,
                               selection: string, composition: Option<string>,
                               timestamp: string, fmt: Formats)
    requires images != []
    ensures var o := Finish(nebula, astro, images, selection, composition, timestamp, fmt);
      && o.Completed? && o.images == images
      && |o.downloads| == InRange(SelectionIndices(selection), |images|)
  {
  }

  /** A report written for `downloads` lists the file name of every
      download, in download order, under the image heading. */
  lemma ReportListsDownloads(nebula: string, astro: Option<AstroRecord>, timestamp: string,
                             downloads: seq<Download>, composition: Option<string>, fmt: Formats)
    ensures var ls := ReportLines(nebula, astro, timestamp, FileNamesOf(downloads), composition, fmt);
      var i := ImagesStart(astro, fmt);
      && i + |downloads| < |ls|
      && ls[i - 1] == ImagesHeading
      && (forall k :: 0 <= k < |downloads| ==> ls[i + k] == "- " + downloads[k].fileName)
  {
    ReportListsImages(nebula, astro, timestamp, FileNamesOf(downloads), composition, fmt);
  }

  /** The report of a run that found results lists the file name of every
      download, in download order, under the image heading. */
  lemma CompletedReportListsDownloads(nebula: string, astro: Option<AstroRecord>, images: seq<ImageCandidate>,
                                      selection: string, composition: Option<string>,
                                      timestamp: string, fmt: Formats)
    requires images != []
    ensures var o := Finish(nebula, astro, images, selection, composition, timestamp, fmt);
      var i := ImagesStart(astro, fmt);
      && o.Completed?
      && i + |o.downloads| < |o.report|
      && o.report[i - 1] == ImagesHeading
      && (forall k :: 0 <= k < |o.downloads| ==> o.report[i + k] == "- " + o.downloads[k].fileName)
  {
    ReportListsDownloads(nebula, astro, timestamp, Planned(images, SelectionIndices(selection)), composition, fmt);
  }
}
