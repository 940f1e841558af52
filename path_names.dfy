/**
 * The POSIX path helpers the tool relies on (os.path.basename, os.path.join,
 * str.endswith) and the directory filter of the directory loader.
 */
module PathNames {

  /** Python's `s.endswith(suffix)`. */
  predicate EndsWith(s: string, suffix: string)
    ensures suffix == [] ==> EndsWith(s, suffix)
    ensures EndsWith(s, suffix) ==> |suffix| <= |s| && (suffix != [] ==> s[|s| - 1] == suffix[|suffix| - 1])
  {
    |suffix| <= |s| && s[|s| - |suffix|..] == suffix
  }

  /** The names the directory loader accepts: `.wav` or `.mp3`, case-sensitive. */
  predicate IsAudioName(name: string)
    ensures IsAudioName(name) ==> |name| >= 4 && name[|name| - 4] == '.'
  {
    EndsWith(name, ".wav") || EndsWith(name, ".mp3")
  }

  /** os.path.basename on POSIX: the part of `p` after its last '/'. */
  function Basename(p: string): (r: string)
    ensures '/' !in r
  {
    if p == [] || p[|p| - 1] == '/' then [] else Basename(p[..|p| - 1]) + [p[|p| - 1]]
  }

  /** The basename is the longest suffix of the path that holds no '/'. */
  lemma {:induction false} BasenameIsLastComponent(p: string)
    ensures var r := Basename(p);
      && |r| <= |p| && r == p[|p| - |r|..]
      && (|r| < |p| ==> p[|p| - |r| - 1] == '/')
  {
    if p != [] && p[|p| - 1] != '/' {
      BasenameIsLastComponent(p[..|p| - 1]);
    }
  }

  /**
   * os.path.join(folder, name) on POSIX: an absolute `name` replaces the folder,
   * otherwise a '/' is put between them unless the folder is empty or already
   * ends with one.
   */
  function Join(folder: string, name: string): (r: string)
    ensures EndsWith(r, name)
    ensures (name == [] || name[0] != '/') ==>
              |folder| <= |r| <= |folder| + 1 + |name| && r[..|folder|] == folder
    ensures (name == [] || name[0] != '/') ==> r == folder + name || r == folder + "/" + name
    ensures (name == [] || name[0] != '/') ==>
              (r == folder + "/" + name <==> folder != [] && folder[|folder| - 1] != '/')
    ensures |name| > 0 && name[0] == '/' ==> r == name
  {
    if |name| > 0 && name[0] == '/' then name
    else if folder == [] || folder[|folder| - 1] == '/' then folder + name
    else folder + "/" + name
  }

  /** A suffix without '/' that follows a '/' (or the start) is the basename. */
  lemma {:induction false} BasenameAfterSeparator(x: string, y: string)
    requires '/' !in y
    requires x == [] || x[|x| - 1] == '/'
    ensures Basename(x + y) == y
    decreases |y|
  {
    if y == [] {
      assert x + y == x;
    } else {
      var p := x + y;
      assert p[|p| - 1] == y[|y| - 1];
      assert p[..|p| - 1] == x + y[..|y| - 1];
      BasenameAfterSeparator(x, y[..|y| - 1]);
      assert y == y[..|y| - 1] + [y[|y| - 1]];
    }
  }

  /** A directory entry joined to its folder has that entry as its basename. */
  lemma BasenameOfJoin(folder: string, name: string)
    requires '/' !in name
    ensures Basename(Join(folder, name)) == name
  {
    if folder == [] || folder[|folder| - 1] == '/' {
      BasenameAfterSeparator(folder, name);
    } else {
      assert folder + "/" + name == (folder + "/") + name;
      BasenameAfterSeparator(folder + "/", name);
    }
  }

  /**
   * The list comprehension of the directory loader: the entries whose names end
   * in `.wav` or `.mp3`, each joined to the folder, in listing order.
   */
  function AudioPaths(folder: string, entries: seq<string>): (r: seq<string>)
    ensures |r| <= |entries|
    ensures forall e :: e in entries && IsAudioName(e) ==> Join(folder, e) in r
    ensures forall p :: p in r ==> exists e :: e in entries && IsAudioName(e) && p == Join(folder, e)
  {
    if entries == [] then []
    else (if IsAudioName(entries[0]) then [Join(folder, entries[0])] else [])
         + AudioPaths(folder, entries[1..])
  }
}
