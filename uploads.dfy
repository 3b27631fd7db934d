/** Storage names for uploaded files: `<subdir>/<uuid><extension>`, where the
    extension is the lower-cased suffix of the uploaded file's name. The UUID
    is generated by the caller and passed in as its string form. Paths follow
    POSIX `pathlib` rules. */
module Uploads {

  /** Index of the last occurrence of `c` in `s`, or -1 (`str.rfind`). */
  function LastIndexOf(s: string, c: char): (r: int)
    ensures -1 <= r < |s|
    ensures r == -1 <==> c !in s
    ensures r >= 0 ==> s[r] == c && c !in s[r + 1..]
    decreases |s|
  {
    if |s| == 0 then -1
    else if s[|s| - 1] == c then |s| - 1
    else LastIndexOf(s[..|s| - 1], c)
  }

  /** `PurePosixPath(p).name`: the last path component, ignoring empty
      components (repeated or trailing slashes) and "." components. */
  function PathName(p: string): (name: string)
    ensures '/' !in name && name != "."
    ensures |name| <= |p|
    ensures '/' !in p && p != "." ==> name == p
    decreases |p|
  {
    var j := LastIndexOf(p, '/');
    var last := p[j + 1..];
    if last != "" && last != "." then last
    else if j < 0 then ""
    else PathName(p[..j])
  }

  /** `PurePath.suffix` of a final component: the text from its last dot,
      provided that dot is neither the first nor the last character. */
  function Suffix(name: string): (ext: string)
    ensures ext == "" || (2 <= |ext| < |name| && ext == name[|name| - |ext|..] && ext[0] == '.' && '.' !in ext[1..])
    ensures '.' !in name ==> ext == ""
    ensures |name| > 0 && name[|name| - 1] == '.' ==> ext == ""
    ensures var i := LastIndexOf(name, '.'); 0 < i < |name| - 1 ==> ext == name[i..]
  {
    var i := LastIndexOf(name, '.');
    if 0 < i < |name| - 1 then name[i..] else ""
  }

  predicate IsUpper(c: char) {
    'A' <= c <= 'Z'
  }

  /** Lower-cases one character (ASCII letters only). */
  function LowerChar(c: char): (r: char)
    ensures !IsUpper(r)
    ensures !IsUpper(c) ==> r == c
    ensures IsUpper(c) ==> 'a' <= r <= 'z'
  {
    if IsUpper(c) then (c as int - 'A' as int + 'a' as int) as char else c
  }

  /** `str.lower()` restricted to ASCII letters. */
  function Lower(s: string): (r: string)
    ensures |r| == |s|
    ensures forall i :: 0 <= i < |s| ==> r[i] == LowerChar(s[i])
  {
    if s == [] then [] else [LowerChar(s[0])] + Lower(s[1..])
  }

  /** The extension a stored name keeps: the lower-cased suffix of the
      uploaded name's final component. */
  function StoredExtension(filename: string): (ext: string)
    ensures ext == "" || (ext[0] == '.' && '.' !in ext[1..])
    ensures '/' !in ext
    ensures forall i :: 0 <= i < |ext| ==> !IsUpper(ext[i])
  {
    var suffix := Suffix(PathName(filename));
    SuffixHasNoSlash(filename);
    LowerKeepsExtensionShape(suffix);
    Lower(suffix)
  }

  lemma SuffixHasNoSlash(filename: string)
    ensures '/' !in Suffix(PathName(filename))
  {
    var name := PathName(filename);
    var suffix := Suffix(name);
    if suffix != "" {
      AbsentFromTail(name, |name| - |suffix|, '/');
    }
  }

  lemma AbsentFromTail(s: string, k: nat, c: char)
    requires k <= |s| && c !in s
    ensures c !in s[k..]
  {
  }

  lemma LowerKeepsExtensionShape(suffix: string)
    requires suffix == "" || (suffix[0] == '.' && '.' !in suffix[1..])
    requires '/' !in suffix
    ensures var ext := Lower(suffix); '/' !in ext && (ext == "" || (ext[0] == '.' && '.' !in ext[1..]))
  {
    assert forall i :: 1 <= i < |suffix| ==> suffix[i] != '.' by {
      if suffix != "" {
        forall i | 1 <= i < |suffix| ensures suffix[i] != '.' {
          assert suffix[i] == suffix[1..][i - 1];
        }
      }
    }
  }

  /** `_uuid_filename(instance, filename, subdir)` with the generated UUID as `uuid`. */
  function UuidFilename(filename: string, subdir: string, uuid: string): (path: string)
    ensures |path| >= |subdir| + 1 + |uuid|
    ensures path[..|subdir| + 1] == subdir + "/"
    ensures path[|subdir| + 1..|subdir| + 1 + |uuid|] == uuid
    ensures path[|subdir| + 1 + |uuid|..] == StoredExtension(filename)
  {
    var ext := StoredExtension(filename);
    var path := subdir + "/" + uuid + ext;
    assert path[..|subdir| + 1] == subdir + "/";
    assert path[|subdir| + 1..|subdir| + 1 + |uuid|] == uuid;
    assert path[|subdir| + 1 + |uuid|..] == ext;
    path
  }

  /** The extension kept is the lower-cased suffix of the final component:
      directories named in the uploaded filename never reach the stored path. */
  lemma {:induction false} ExtensionOfFinalComponent(dir: string, base: string, subdir: string, uuid: string)
    requires '/' !in base && base != "" && base != "."
    ensures UuidFilename(dir + "/" + base, subdir, uuid) == UuidFilename(base, subdir, uuid)
  {
    var p := dir + "/" + base;
    assert p[|dir|] == '/';
    assert p[|dir| + 1..] == base;
    assert LastIndexOf(p, '/') == |dir|;
    assert PathName(p) == base;
  }

  /** Appending text without `c` does not move the last `c`. */
  lemma {:induction false} LastIndexOfAppend(s: string, t: string, c: char)
    requires c !in t
    ensures LastIndexOf(s + t, c) == LastIndexOf(s, c)
    decreases |t|
  {
    if t != [] {
      assert (s + t)[..|s + t| - 1] == s + t[..|t| - 1];
      assert t[|t| - 1] in t;
      LastIndexOfAppend(s, t[..|t| - 1], c);
    } else {
      assert s + t == s;
    }
  }

  /** The suffix of `base.e` is `.e` when `e` has no dot. */
  lemma SuffixOfDotted(base: string, e: string)
    requires base != "" && e != "" && '.' !in e
    ensures Suffix(base + "." + e) == "." + e
  {
    var name := base + "." + e;
    LastIndexOfAppend(base + ".", e, '.');
    assert LastIndexOf(base + ".", '.') == |base|;
    assert name[|base|..] == "." + e;
  }

  /** Lower-casing leaves a leading dot in place. */
  lemma LowerAfterDot(e: string)
    ensures Lower("." + e) == "." + Lower(e)
  {
    assert ("." + e)[1..] == e;
  }

  /** An ordinary name keeps its extension, lower-cased: `song.MP3` is stored
      with `.mp3`. */
  lemma DottedName(base: string, e: string)
    requires base != "" && e != ""
    requires '/' !in base && '/' !in e && '.' !in e
    ensures StoredExtension(base + "." + e) == "." + Lower(e)
  {
    var name := base + "." + e;
    assert '/' !in name by {
      assert forall i :: 0 <= i < |name| ==> name[i] != '/' by {
        forall i | 0 <= i < |name| ensures name[i] != '/' {
          if i < |base| {
            assert name[i] == base[i];
          } else if i > |base| {
            assert name[i] == e[i - |base| - 1];
          }
        }
      }
    }
    assert name != ".";
    assert PathName(name) == name;
    SuffixOfDotted(base, e);
    LowerAfterDot(e);
  }

  /** A filename whose final component has no extension gives the bare UUID. */
  lemma NoExtension(filename: string, subdir: string, uuid: string)
    requires '.' !in PathName(filename)
    ensures UuidFilename(filename, subdir, uuid) == subdir + "/" + uuid
  {
  }

  /** The four `upload_to` callables: each stores under its own directory. */
  function ArtistImageUploadTo(filename: string, uuid: string): (path: string)
    ensures |path| >= 8 + |uuid|
    ensures path[..8] == "artists/"
    ensures path[8..8 + |uuid|] == uuid
    ensures path[8 + |uuid|..] == StoredExtension(filename)
  {
    UuidFilename(filename, "artists", uuid)
  }

  function AlbumCoverUploadTo(filename: string, uuid: string): (path: string)
    ensures |path| >= 7 + |uuid|
    ensures path[..7] == "albums/"
    ensures path[7..7 + |uuid|] == uuid
    ensures path[7 + |uuid|..] == StoredExtension(filename)
  {
    UuidFilename(filename, "albums", uuid)
  }

  function TrackAudioUploadTo(filename: string, uuid: string): (path: string)
    ensures |path| >= 7 + |uuid|
    ensures path[..7] == "tracks/"
    ensures path[7..7 + |uuid|] == uuid
    ensures path[7 + |uuid|..] == StoredExtension(filename)
  {
    UuidFilename(filename, "tracks", uuid)
  }

  function AdVideoUploadTo(filename: string, uuid: string): (path: string)
    ensures |path| >= 4 + |uuid|
    ensures path[..4] == "ads/"
    ensures path[4..4 + |uuid|] == uuid
    ensures path[4 + |uuid|..] == StoredExtension(filename)
  {
    UuidFilename(filename, "ads", uuid)
  }
}
