/**
  Starting a rip: the `streamlink` command line built from a detected capture,
  and the rule that a scan cycle starts one only when detection found a live
  broadcast. Spawning the process and listening to it stay outside.
 */
module Rip {
  import opened Wrappers
  import opened Json
  import opened Text
  import opened Names
  import opened Detection
  import opened Startup

  /** An external command: program, argument vector, working directory. */
  datatype Invocation = Invocation(program: string, args: seq<string>, cwd: string)

  /**
    `spawn("streamlink", [url, quality, "-o " + normalizeName(filename), "--force"], { cwd: outdir })`:
    four arguments, the `-o` flag and the file name sharing the third, the
    file name normalized as a file (not a directory) name.
   */
  function StreamRip(c: Capture): (inv: Invocation)
    ensures inv.program == "streamlink" && inv.cwd == c.outdir
    ensures |inv.args| == 4 && inv.args[0] == c.url && inv.args[1] == c.quality && inv.args[3] == "--force"
    ensures inv.args[2] == "-o " + NormalizeName(c.filename, false)
    ensures |inv.args[2]| >= 3 && inv.args[2][..3] == "-o " && SafeName(inv.args[2][3..], false)
  {
    var name := NormalizeName(c.filename, false);
    NormalizeNameIsSafe(c.filename, false);
    Invocation("streamlink", [c.url, c.quality, "-o " + name, "--force"], c.outdir)
  }

  /** `args && startStreamRip(...args)`: a rip starts exactly when detection produced a capture. */
  function Dispatch(detected: Option<Capture>): (r: Option<Invocation>)
    ensures r.Some? <==> detected.Some?
    ensures r.Some? ==> r.value == StreamRip(detected.value)
  {
    match detected
    case None => None
    case Some(c) => Some(StreamRip(c))
  }

  /** One scan cycle: detect with the configured strategy, then rip what was found. */
  function Cycle(cfg: Config, api: ApiObservation, page: PageObservation, outdir: string): (r: Option<Invocation>)
    ensures r.Some? ==> r.value.program == "streamlink" && r.value.cwd == outdir
  {
    Dispatch(Detect(cfg, api, page, outdir))
  }

  /** `normalizeName` keeps the ".ts" ending of a file name. */
  lemma NormalizeNameKeepsTs(f: string)
    requires EndsWithTs(f)
    ensures EndsWithTs(NormalizeName(f, false))
  {
    var stem, q := f[..|f| - 3], f[|f| - 3..];
    assert f == stem + q;
    assert q == ".ts";
    assert SafeName(q, false) by {
      forall i | 0 <= i < |q| ensures !IsReserved(q[i]) {
        assert q[i] in ".ts";
      }
    }
    NormalizeNameKeepsSuffix(stem, q, false);
  }

  /** For a file name that ends in ".ts", the text after `-o ` is safe, trimmed and still ends in ".ts". */
  lemma StreamRipKeepsTs(c: Capture)
    requires EndsWithTs(c.filename)
    ensures var name := StreamRip(c).args[2][3..];
            name == NormalizeName(c.filename, false) && SafeName(name, false) && Trimmed(name) && EndsWithTs(name)
  {
    var name := NormalizeName(c.filename, false);
    assert StreamRip(c).args[2] == "-o " + name;
    assert StreamRip(c).args[2][3..] == name;
    NormalizeNameKeepsTs(c.filename);
    NormalizeNameIsSafe(c.filename, false);
  }

  /**
    A cycle runs `streamlink` only when detection found a broadcast, and then
    on the detected URL, at quality "best", in the output directory, with the
    text after `-o ` safe, trimmed and still ending in ".ts".
   */
  lemma CycleRipsOnlyDetected(cfg: Config, api: ApiObservation, page: PageObservation, outdir: string)
    ensures Cycle(cfg, api, page, outdir).Some? <==> Detect(cfg, api, page, outdir).Some?
    ensures var r := Cycle(cfg, api, page, outdir);
            r.Some? ==>
              var name := r.value.args[2][3..];
              && r.value.program == "streamlink" && r.value.cwd == outdir
              && r.value.args[0] == Detect(cfg, api, page, outdir).value.url
              && r.value.args[1] == "best"
              && name == NormalizeName(Detect(cfg, api, page, outdir).value.filename, false)
              && SafeName(name, false) && Trimmed(name) && EndsWithTs(name)
  {
    var d := Detect(cfg, api, page, outdir);
    DetectShape(cfg, api, page, outdir);
    if d.Some? {
      StreamRipKeepsTs(d.value);
    }
  }

  /**
    Whatever the chosen strategy finds is ripped: with a string output
    directory, a capture from the live page or from a buildable API request
    leads straight to `streamlink` on that capture.
   */
  lemma CycleRipsWhatStrategyFinds(cfg: Config, api: ApiObservation, page: PageObservation, outdir: string)
    requires cfg.outputDir.Str?
    ensures Truthy(cfg.useHtml) && page.Page? && HtmlCapture(cfg.channelId, page.chatPresent, page.title, outdir).Some? ==>
              Cycle(cfg, api, page, outdir) == Some(StreamRip(HtmlCapture(cfg.channelId, page.chatPresent, page.title, outdir).value))
    ensures !Truthy(cfg.useHtml) && ApiUrl(cfg).Some? && api.Response? && ApiCapture(api.data, outdir).Some? ==>
              Cycle(cfg, api, page, outdir) == Some(StreamRip(ApiCapture(api.data, outdir).value))
  {
  }
}
