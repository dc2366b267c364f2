/**
  The tool-library URL helpers shared by Update Tools from Libraries and Relink Libraries: the
  library folder tree is flattened into a list of asset URLs, the three library locations are
  listed one after the other, and each URL is shown by its last path segment. A folder is the URLs
  of its assets and its subfolders, as the host's tool library manager reports them.
*/
module LibraryUrls {

  datatype Folder = Folder(assets: seq<string>, subfolders: seq<Folder>)

  /** The asset URLs of a folder tree: a folder's own assets first, then those of each subfolder
      in turn. */
  function Urls(f: Folder): (r: seq<string>)
    ensures |f.assets| <= |r| && r[..|f.assets|] == f.assets
    decreases f, 1
  {
    f.assets + UrlsOf(f.subfolders)
  }

  /** The asset URLs of a list of folders, one folder after the other. */
  function UrlsOf(fs: seq<Folder>): seq<string>
    decreases fs, 0
  {
    if fs == [] then [] else UrlsOf(fs[..|fs| - 1]) + Urls(fs[|fs| - 1])
  }

  /** Listing two runs of folders lists the first run, then the second. */
  lemma {:induction false} UrlsOfAppend(a: seq<Folder>, b: seq<Folder>)
    ensures UrlsOf(a + b) == UrlsOf(a) + UrlsOf(b)
    decreases |b|
  {
    if b == [] {
      assert a + b == a;
    } else {
      var init := b[..|b| - 1];
      assert (a + b)[..|a + b| - 1] == a + init;
      assert (a + b)[|a + b| - 1] == b[|b| - 1];
      UrlsOfAppend(a, init);
      calc {
        UrlsOf(a + b);
        UrlsOf(a + init) + Urls(b[|b| - 1]);
        UrlsOf(a) + UrlsOf(init) + Urls(b[|b| - 1]);
        UrlsOf(a) + (UrlsOf(init) + Urls(b[|b| - 1]));
      }
    }
  }

  /** A URL is listed iff it is listed for one of the folders. */
  lemma {:induction false} UrlsOfMembers(fs: seq<Folder>, u: string)
    ensures u in UrlsOf(fs) <==> exists i :: 0 <= i < |fs| && u in Urls(fs[i])
  {
    if fs != [] {
      UrlsOfLast(fs);
      UrlsOfMembers(fs[..|fs| - 1], u);
      ListedSplit(fs, u);
    }
  }

  lemma UrlsOfLast(fs: seq<Folder>)
    requires fs != []
    ensures UrlsOf(fs) == UrlsOf(fs[..|fs| - 1]) + Urls(fs[|fs| - 1])
  {
  }

  /** Some folder of a non-empty run lists `u` iff one of all but the last does or the last does. */
  lemma ListedSplit(fs: seq<Folder>, u: string)
    requires fs != []
    ensures var init := fs[..|fs| - 1];
      (exists i :: 0 <= i < |fs| && u in Urls(fs[i])) <==>
      (exists i :: 0 <= i < |init| && u in Urls(init[i])) || u in Urls(fs[|init|])
  {
    var init := fs[..|fs| - 1];
    if exists i :: 0 <= i < |init| && u in Urls(init[i]) {
      var i :| 0 <= i < |init| && u in Urls(init[i]);
      assert fs[i] == init[i];
    }
    if exists i :: 0 <= i < |fs| && u in Urls(fs[i]) {
      var i :| 0 <= i < |fs| && u in Urls(fs[i]);
      if i < |init| {
        assert init[i] == fs[i];
      }
    }
  }

  lemma UrlsMembers(f: Folder, u: string)
    ensures u in Urls(f) <==> u in f.assets || exists i :: 0 <= i < |f.subfolders| && u in Urls(f.subfolders[i])
  {
    UrlsOfMembers(f.subfolders, u);
  }

  /** `getLibrariesURLs`: the folder's asset URLs are appended, then the list of each subfolder. */
  method GetLibrariesURLs(f: Folder) returns (urls: seq<string>)
    ensures urls == Urls(f)
    decreases f
  {
    urls := [];
    var i := 0;
    while i < |f.assets|
      invariant 0 <= i <= |f.assets|
      invariant urls == f.assets[..i]
    {
      urls := urls + [f.assets[i]];
      assert f.assets[..i + 1] == f.assets[..i] + [f.assets[i]];
      i := i + 1;
    }
    assert f.assets[..i] == f.assets;
    var k := 0;
    while k < |f.subfolders|
      invariant 0 <= k <= |f.subfolders|
      invariant urls == f.assets + UrlsOf(f.subfolders[..k])
    {
      assert f.subfolders[k] in f.subfolders;
      var sub := GetLibrariesURLs(f.subfolders[k]);
      assert f.subfolders[..k + 1][..k] == f.subfolders[..k];
      urls := urls + sub;
      k := k + 1;
    }
    assert f.subfolders[..k] == f.subfolders;
  }

  /** `get_tooling_libraries`: the cloud libraries, then the local ones, then the external ones. */
  method GetToolingLibraries(cloud: Folder, local: Folder, external: Folder) returns (libraries: seq<string>)
    ensures libraries == Urls(cloud) + Urls(local) + Urls(external)
    ensures libraries[..|Urls(cloud)|] == Urls(cloud)
    ensures libraries[|Urls(cloud)|..|Urls(cloud)| + |Urls(local)|] == Urls(local)
    ensures libraries[|Urls(cloud)| + |Urls(local)|..] == Urls(external)
  {
    libraries := GetLibrariesURLs(cloud);
    var more := GetLibrariesURLs(local);
    libraries := libraries + more;
    more := GetLibrariesURLs(external);
    libraries := libraries + more;
  }

  // ---------------------------------------------------------------------------
  // Library names
  // ---------------------------------------------------------------------------

  /** Python's `s.split('/')`: the pieces between the slashes, always at least one. */
  function SplitOnSlash(s: string): (parts: seq<string>)
    ensures |parts| >= 1
  {
    if s == [] then [""]
    else
      var parts := SplitOnSlash(s[..|s| - 1]);
      if s[|s| - 1] == '/' then parts + [""]
      else parts[..|parts| - 1] + [parts[|parts| - 1] + [s[|s| - 1]]]
  }

  /** Joining the pieces with slashes gives the string back, and no piece holds a slash. */
  lemma {:induction false} SplitOnSlashJoins(s: string)
    ensures JoinWithSlash(SplitOnSlash(s)) == s
    ensures forall k :: 0 <= k < |SplitOnSlash(s)| ==> '/' !in SplitOnSlash(s)[k]
  {
    if s != [] {
      var init := s[..|s| - 1];
      var parts := SplitOnSlash(init);
      SplitOnSlashJoins(init);
      assert s == init + [s[|s| - 1]];
      if s[|s| - 1] == '/' {
        JoinAppend(parts, "");
      } else {
        var front := parts[..|parts| - 1];
        var last := parts[|parts| - 1];
        assert parts == front + [last];
        JoinLastGrows(front, last, s[|s| - 1]);
      }
    }
  }

  /** The pieces joined by slashes. */
  function JoinWithSlash(parts: seq<string>): string {
    if parts == [] then []
    else if |parts| == 1 then parts[0]
    else JoinWithSlash(parts[..|parts| - 1]) + "/" + parts[|parts| - 1]
  }

  lemma JoinAppend(parts: seq<string>, p: string)
    requires parts != []
    ensures JoinWithSlash(parts + [p]) == JoinWithSlash(parts) + "/" + p
  {
    assert (parts + [p])[..|parts + [p]| - 1] == parts;
  }

  lemma JoinLastGrows(front: seq<string>, last: string, c: char)
    ensures JoinWithSlash(front + [last + [c]]) == JoinWithSlash(front + [last]) + [c]
  {
    if front != [] {
      JoinAppend(front, last + [c]);
      JoinAppend(front, last);
    } else {
      assert front + [last + [c]] == [last + [c]];
      assert front + [last] == [last];
    }
  }

  /** The text after the last '/'. */
  function LastSegment(s: string): string {
    if s == [] then []
    else if s[|s| - 1] == '/' then []
    else LastSegment(s[..|s| - 1]) + [s[|s| - 1]]
  }

  /** The last segment is the longest suffix without a slash: it holds no slash, it ends the string,
      and it is the whole string or follows a slash. */
  lemma {:induction false} LastSegmentIsSlashFreeSuffix(s: string)
    ensures '/' !in LastSegment(s)
    ensures |LastSegment(s)| <= |s| && s[|s| - |LastSegment(s)|..] == LastSegment(s)
    ensures |LastSegment(s)| < |s| ==> s[|s| - |LastSegment(s)| - 1] == '/'
  {
    if s != [] && s[|s| - 1] != '/' {
      var init := s[..|s| - 1];
      LastSegmentIsSlashFreeSuffix(init);
      var r := LastSegment(init);
      assert init[|init| - |r|..] == r;
      assert s[|s| - 1 - |r|..] == r + [s[|s| - 1]];
    }
  }

  /** `split('/')[-1]` is the last segment. */
  lemma {:induction false} LastPieceIsLastSegment(s: string)
    ensures SplitOnSlash(s)[|SplitOnSlash(s)| - 1] == LastSegment(s)
  {
    if s != [] {
      LastPieceIsLastSegment(s[..|s| - 1]);
    }
  }

  /** The name shown for a library: `url.split('/')[-1]`, which is the URL's last segment. */
  function LibraryName(url: string): (name: string)
    ensures name == LastSegment(url)
  {
    LastPieceIsLastSegment(url);
    SplitOnSlash(url)[|SplitOnSlash(url)| - 1]
  }

  /** `format_library_names`: each library URL becomes its name, in the same order. */
  method FormatLibraryNames(libraries: seq<string>) returns (names: seq<string>)
    ensures |names| == |libraries|
    ensures forall i :: 0 <= i < |libraries| ==> names[i] == LibraryName(libraries[i])
  {
    names := [];
    var i := 0;
    while i < |libraries|
      invariant 0 <= i <= |libraries| && |names| == i
      invariant forall j :: 0 <= j < i ==> names[j] == LibraryName(libraries[j])
    {
      names := names + [LibraryName(libraries[i])];
      i := i + 1;
    }
  }
}
