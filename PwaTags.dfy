/** The build script that adds the installable-app tags to every page: each
    listed HTML file that lacks them gets the tag block inserted before its
    `</head>`, and the run counts updated and skipped files. */
module PwaTags {
  import opened Common

  const Marker: string := "PWA Meta Tags"

  /** The tag block, with its leading newline and four-space indentation:
      it opens with a comment holding `Marker`. */
  const Tags: string := "\n    <!-- " + Marker + TagsRest

  /** The tag block after the marker. */
  const TagsRest: string :=
    " -->"
    + "\n    <meta name=\"theme-color\" content=\"#ff6b35\">"
    + "\n    <meta name=\"apple-mobile-web-app-capable\" content=\"yes\">"
    + "\n    <meta name=\"apple-mobile-web-app-status-bar-style\" content=\"black-translucent\">"
    + "\n    <meta name=\"apple-mobile-web-app-title\" content=\"DJConnect\">"
    + "\n    <link rel=\"manifest\" href=\"/manifest.json\">"
    + "\n    <link rel=\"apple-touch-icon\" href=\"/images/icon-192x192.png\">"
    + "\n    <link rel=\"icon\" type=\"image/png\" sizes=\"192x192\" href=\"/images/icon-192x192.png\">"
    + "\n    <link rel=\"icon\" type=\"image/png\" sizes=\"512x512\" href=\"/images/icon-512x512.png\">"
    + "\n    <!-- PWA Installation Script -->"
    + "\n    <script src=\"/js/pwa-install.js\" defer></script>"

  const ManifestMarker: string := "manifest.json"
  const HeadClose: string := "</head>"

  /** What replaces the first `</head>`. */
  const Insertion: string := Tags + "\n" + HeadClose

  /** The pages the script visits, relative to the project root. */
  const HtmlFiles: seq<string> := [
    "public/index.html",
    "public/html/admin-djs.html",
    "public/html/admin-parties.html",
    "public/html/admin-settings.html",
    "public/html/admin-wishlists.html",
    "public/html/admin.html",
    "public/html/dj.html",
    "public/html/forgot-password.html",
    "public/html/history.html",
    "public/html/login.html",
    "public/html/ranking.html",
    "public/html/register.html",
    "public/html/reset-password.html",
    "public/html/wishlist-manager.html",
    "public/html/wishlist.html"
  ]

  /** The inserted text carries the skip marker. */
  lemma InsertionHasMarker()
    ensures Contains(Insertion, Marker)
  {
    assert OccursAt(Marker, Marker, 0);
    ContainsInFrame("\n    <!-- ", Marker, TagsRest + "\n" + HeadClose, Marker);
    assert "\n    <!-- " + Marker + (TagsRest + "\n" + HeadClose) == Insertion;
  }

  /** What the script does with one existing file's content. */
  datatype Outcome = Skipped | Updated(content: string) | NoHead

  /** A page with either marker is skipped; otherwise the tags go before
      the first `</head>`; a page without `</head>` is left alone. */
  function Transform(content: string): (o: Outcome)
    ensures o.Skipped? <==> Contains(content, Marker) || Contains(content, ManifestMarker)
    ensures o.NoHead? <==> !o.Skipped? && !Contains(content, HeadClose)
    ensures o.Updated? ==>
      exists k: nat :: OccursAt(content, HeadClose, k) && (forall j: nat :: j < k ==> !OccursAt(content, HeadClose, j))
                       && o.content == content[..k] + Insertion + content[k + |HeadClose|..]
  {
    if Includes(content, Marker) || Includes(content, ManifestMarker) then Skipped
    else if Includes(content, HeadClose) then Updated(ReplaceFirst(content, HeadClose, Insertion))
    else NoHead
  }

  /** The file's content after the script: the new content when updated,
      the old one otherwise. */
  function Result(content: string): string
  {
    match Transform(content)
    case Updated(c) => c
    case _ => content
  }

  /** A content the script would not rewrite. */
  predicate Settled(content: string)
  {
    !Transform(content).Updated?
  }

  /** Whatever the script leaves in a file is settled: running the
      transform on it again changes nothing. */
  lemma ResultIsSettled(content: string)
    ensures Settled(Result(content))
    ensures Result(Result(content)) == Result(content)
  {
    if Transform(content).Updated? {
      var k: nat :| OccursAt(content, HeadClose, k) && Result(content) == content[..k] + Insertion + content[k + |HeadClose|..];
      InsertionHasMarker();
      ContainsInFrame(content[..k], Insertion, content[k + |HeadClose|..], Marker);
    }
  }

  /** The files, keyed by path, and the two counters. */
  datatype RunState = RunState(files: map<string, string>, success: nat, skip: nat)

  /** One iteration of the loop: a missing file is reported and ignored, a
      skipped file counts as skipped, an updated one is written and counts
      as updated, a page without `</head>` is only reported. */
  function Step(st: RunState, path: string): (r: RunState)
    ensures r.files.Keys == st.files.Keys
    ensures r.success + r.skip <= st.success + st.skip + 1
    ensures forall p :: p in st.files && p != path ==> r.files[p] == st.files[p]
    ensures path !in st.files || Transform(st.files[path]).NoHead? ==> r == st
    ensures path in st.files && Transform(st.files[path]).Skipped? ==> r == st.(skip := st.skip + 1)
    ensures path in st.files && Transform(st.files[path]).Updated? ==>
      r == st.(files := st.files[path := Transform(st.files[path]).content], success := st.success + 1)
    ensures path in st.files ==> r.files[path] == Result(st.files[path])
  {
    if path !in st.files then st
    else match Transform(st.files[path])
      case Skipped => st.(skip := st.skip + 1)
      case Updated(c) => st.(files := st.files[path := c], success := st.success + 1)
      case NoHead => st
  }

  /** The whole run over `paths`, in order: every listed file that exists
      ends up as the transform leaves it (a path listed twice included, since
      the transform's result is settled), and every other file is kept. */
  function Run(files: map<string, string>, paths: seq<string>): (r: RunState)
    ensures r.files.Keys == files.Keys
    ensures r.success + r.skip <= |paths|
    ensures forall p :: p in files && p !in paths ==> r.files[p] == files[p]
    ensures forall p :: p in files && p in paths ==> r.files[p] == Result(files[p])
  {
    if paths == [] then RunState(files, 0, 0)
    else
      var init := paths[..|paths| - 1];
      var last := paths[|paths| - 1];
      assert forall p :: p in paths && p != last ==> p in init;
      if last in files then
        ResultIsSettled(files[last]);
        Step(Run(files, init), last)
      else
        Step(Run(files, init), last)
  }

  /** After a run every listed file that exists is settled. */
  lemma {:induction false} RunSettles(files: map<string, string>, paths: seq<string>)
    ensures forall p :: p in paths && p in files ==> Settled(Run(files, paths).files[p])
  {
    if paths != [] {
      var init := paths[..|paths| - 1];
      var last := paths[|paths| - 1];
      var before := Run(files, init);
      RunSettles(files, init);
      if last in before.files {
        ResultIsSettled(before.files[last]);
      }
      forall p | p in paths && p in files
        ensures Settled(Run(files, paths).files[p])
      {
        if p != last {
          assert p in init;
        }
      }
    }
  }

  /** A run over files that are all settled changes none and updates none. */
  lemma {:induction false} RunOnSettled(files: map<string, string>, paths: seq<string>)
    requires forall p :: p in paths && p in files ==> Settled(files[p])
    ensures Run(files, paths).files == files
    ensures Run(files, paths).success == 0
  {
    if paths != [] {
      var init := paths[..|paths| - 1];
      assert forall p :: p in init ==> p in paths;
      RunOnSettled(files, init);
    }
  }

  /** Running the script a second time changes no file and updates none. */
  lemma SecondRunChangesNothing(files: map<string, string>, paths: seq<string>)
    ensures Run(Run(files, paths).files, paths).files == Run(files, paths).files
    ensures Run(Run(files, paths).files, paths).success == 0
  {
    RunSettles(files, paths);
    RunOnSettled(Run(files, paths).files, paths);
  }

  /** The project's files on disk, keyed by path; a path not in the map does
      not exist. */
  class Disk {
    var files: map<string, string>

    constructor (files: map<string, string>)
      ensures this.files == files
    {
      this.files := files;
    }
  }

  /** `addPWATags`: visits the listed pages in order, rewriting files on
      disk and counting. */
  method AddPwaTags(disk: Disk, paths: seq<string>) returns (successCount: nat, skipCount: nat)
    modifies disk
    ensures RunState(disk.files, successCount, skipCount) == Run(old(disk.files), paths)
    ensures successCount + skipCount <= |paths|
  {
    successCount := 0;
    skipCount := 0;
    var i := 0;
    while i < |paths|
      invariant 0 <= i <= |paths|
      invariant RunState(disk.files, successCount, skipCount) == Run(old(disk.files), paths[..i])
    {
      var path := paths[i];
      assert paths[..i + 1][..i] == paths[..i];
      if path in disk.files {
        var content := disk.files[path];
        var outcome := Transform(content);
        if outcome.Skipped? {
          skipCount := skipCount + 1;
        } else if outcome.Updated? {
          disk.files := disk.files[path := outcome.content];
          successCount := successCount + 1;
        }
      }
      i := i + 1;
    }
    assert paths[..i] == paths;
  }

  /** The script's run: the listed pages, at most fifteen counted. */
  method RunScript(disk: Disk) returns (successCount: nat, skipCount: nat)
    modifies disk
    ensures RunState(disk.files, successCount, skipCount) == Run(old(disk.files), HtmlFiles)
    ensures successCount + skipCount <= 15
  {
    successCount, skipCount := AddPwaTags(disk, HtmlFiles);
  }
}
