/** Companion-file resolution (`Wien2kParser.get_wien2k_file`): a companion
    file is chosen from the listing of the main file's directory by the
    suffix of its name; several candidates are told apart by the base name
    of the main file. */
module CompanionFiles {
  import opened Values

  /** Index of the last '.' in s, if any. */
  function LastDot(s: string): (r: Option<nat>)
    ensures r.Some? ==> r.value < |s| && s[r.value] == '.'
    ensures r.Some? ==> forall j :: r.value < j < |s| ==> s[j] != '.'
    ensures r.None? ==> forall j :: 0 <= j < |s| ==> s[j] != '.'
  {
    if s == [] then None
    else if s[|s| - 1] == '.' then Some(|s| - 1)
    else LastDot(s[..|s| - 1])
  }

  /** `name.rsplit('.', 1)[0]`: the name without its last extension. */
  function Stem(name: string): (stem: string)
    ensures StartsWith(name, stem)
    ensures stem == name <==> forall j :: 0 <= j < |name| ==> name[j] != '.'
    ensures stem != name ==> name[|stem|] == '.' && forall j :: |stem| < j < |name| ==> name[j] != '.'
  {
    match LastDot(name)
    case None => name
    case Some(i) => name[..i]
  }

  /** The names in the listing that end with the suffix, in listing order. */
  function Candidates(listing: seq<string>, ext: string): (c: seq<string>)
    ensures |c| <= |listing|
    ensures forall p :: p in c <==> p in listing && EndsWith(p, ext)
  {
    if listing == [] then []
    else (if EndsWith(listing[0], ext) then [listing[0]] else []) + Candidates(listing[1..], ext)
  }

  /** The first name of a list that starts with the prefix. */
  function FirstWithPrefix(paths: seq<string>, prefix: string): (r: Option<string>)
    ensures r.Some? ==> r.value in paths && StartsWith(r.value, prefix)
    ensures r.None? <==> forall p :: p in paths ==> !StartsWith(p, prefix)
  {
    if paths == [] then None
    else if StartsWith(paths[0], prefix) then Some(paths[0])
    else FirstWithPrefix(paths[1..], prefix)
  }

  /** `get_wien2k_file(ext)`: no candidate gives None, a single candidate is
      taken whatever its name, and among several the first one that starts
      with the main file's stem is taken (None when there is none). The
      directory part of the returned path is left out: the result is the
      name from the listing. */
  function Resolve(listing: seq<string>, mainName: string, ext: string): (r: Option<string>)
    ensures r.Some? ==> r.value in listing && EndsWith(r.value, ext)
    ensures Candidates(listing, ext) == [] ==> r.None?
  {
    var paths := Candidates(listing, ext);
    if |paths| == 0 then None
    else if |paths| == 1 then Some(paths[0])
    else FirstWithPrefix(paths, Stem(mainName))
  }

  /** The reference reading of the several-candidates case: the first index of
      the listing whose name both ends with the suffix and starts with the prefix. */
  function FirstMatch(listing: seq<string>, ext: string, prefix: string): (r: Option<nat>)
    ensures r.Some? ==> r.value < |listing|
    ensures r.Some? ==> EndsWith(listing[r.value], ext) && StartsWith(listing[r.value], prefix)
    ensures r.Some? ==> forall j :: 0 <= j < r.value ==> !(EndsWith(listing[j], ext) && StartsWith(listing[j], prefix))
    ensures r.None? ==> forall j :: 0 <= j < |listing| ==> !(EndsWith(listing[j], ext) && StartsWith(listing[j], prefix))
  {
    if listing == [] then None
    else if EndsWith(listing[0], ext) && StartsWith(listing[0], prefix) then Some(0)
    else match FirstMatch(listing[1..], ext, prefix)
      case None => None
      case Some(i) => Some(i + 1)
  }

  /** Searching the candidates for the prefix finds the listing's first name
      that has both the suffix and the prefix. */
  lemma {:induction false} FirstWithPrefixOfCandidates(listing: seq<string>, ext: string, prefix: string)
    ensures FirstWithPrefix(Candidates(listing, ext), prefix) ==
            (match FirstMatch(listing, ext, prefix) case None => None case Some(i) => Some(listing[i]))
  {
    if listing != [] {
      FirstWithPrefixOfCandidates(listing[1..], ext, prefix);
      var rest := Candidates(listing[1..], ext);
      if EndsWith(listing[0], ext) {
        assert Candidates(listing, ext) == [listing[0]] + rest;
        assert ([listing[0]] + rest)[1..] == rest;
      } else {
        assert Candidates(listing, ext) == rest;
      }
    }
  }

  /** The four cases of companion-file resolution. */
  lemma ResolveCases(listing: seq<string>, mainName: string, ext: string)
    ensures var r := Resolve(listing, mainName, ext);
            && (r.Some? ==> r.value in listing && EndsWith(r.value, ext))
            && ((forall p :: p in listing ==> !EndsWith(p, ext)) ==> r == None)
            && (|Candidates(listing, ext)| == 1 ==> r == Some(Candidates(listing, ext)[0]))
            && (|Candidates(listing, ext)| > 1 ==>
                  r == match FirstMatch(listing, ext, Stem(mainName))
                       case None => None case Some(i) => Some(listing[i]))
  {
    var paths := Candidates(listing, ext);
    if |paths| > 0 {
      assert paths[0] in paths;
    }
    if |paths| > 1 {
      FirstWithPrefixOfCandidates(listing, ext, Stem(mainName));
    }
  }

  /** `get_wien2k_file(primary)`, falling back to `get_wien2k_file(fallback)`
      when the first finds nothing. */
  function ResolveEither(listing: seq<string>, mainName: string, primary: string, fallback: string): (r: Option<string>)
    ensures Resolve(listing, mainName, primary).Some? ==> r == Resolve(listing, mainName, primary)
    ensures Resolve(listing, mainName, primary).None? ==> r == Resolve(listing, mainName, fallback)
  {
    var first := Resolve(listing, mainName, primary);
    if first.Some? then first else Resolve(listing, mainName, fallback)
  }

  /** `files = [get_wien2k_file(e) for e in exts]; if None in files: return`:
      all the files, or None when any of them is missing. */
  function ResolveAll(listing: seq<string>, mainName: string, exts: seq<string>): (r: Option<seq<string>>)
    ensures r.Some? <==> forall i :: 0 <= i < |exts| ==> Resolve(listing, mainName, exts[i]).Some?
    ensures r.Some? ==> |r.value| == |exts|
    ensures r.Some? ==> forall i :: 0 <= i < |exts| ==> Some(r.value[i]) == Resolve(listing, mainName, exts[i])
  {
    if exts == [] then Some([])
    else
      var head := Resolve(listing, mainName, exts[0]);
      var tail := ResolveAll(listing, mainName, exts[1..]);
      assert forall i :: 1 <= i < |exts| ==> exts[i] == exts[1..][i - 1];
      if head.Some? && tail.Some? then Some([head.value] + tail.value) else None
  }

  /** The spin-channel gate on file selection: one eigenvalue file
      (`energy`) for one channel, `energyup` then `energydn` for two. */
  function EnergySuffixes(nspin: nat): (exts: seq<string>)
    ensures |exts| == if nspin == 1 then 1 else 2
  {
    if nspin == 1 then ["energy"] else ["energyup", "energydn"]
  }

  /** The same gate for the density-of-states files. */
  function DosSuffixes(nspin: nat): (exts: seq<string>)
    ensures |exts| == if nspin == 1 then 1 else 2
  {
    if nspin == 1 then ["dos1"] else ["dos1up", "dos1dn"]
  }
}
