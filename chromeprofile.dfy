/** The chromeprofile package: extracting profile archives from the profiles directory without
    letting an entry escape the destination ("Zip Slip"), and the map from a profile tag (the
    archive's file name without ".zip") to the profile directory the archive holds.
    The file system is left out: an archive is given as its entries, and the outcome of every
    call into the file system is a parameter. */
module ChromeProfile {
  import opened Wrappers
  import opened Strings
  import opened Paths

  const ProfilesDir := "./profiles"
  const ZipExt := ".zip"

  /** An archive entry: its name, whether it is a directory, and the I/O error that creating its
      directories, creating its file or copying its content meets, if any. */
  datatype ZipEntry = ZipEntry(name: string, isDir: bool, ioError: Option<string>)

  /** What extracting one entry leaves on disk (a file comes with its parent directories). */
  datatype Extracted = Directory(path: string) | RegularFile(path: string)

  /** The entry lies strictly below the absolute destination once its name is resolved. */
  predicate Below(destination: string, name: string) {
    |CleanElements(destination)| > 0 &&
    |Resolved(destination, name)| > |CleanElements(destination)| &&
    Resolved(destination, name)[..|CleanElements(destination)|] == CleanElements(destination)
  }

  /** unzipFile: the Zip-Slip check first, then the directory or the file. */
  function UnzipFile(entry: ZipEntry, destination: string): (r: Result<Extracted>)
    ensures !Contained(destination, entry.name) ==> r == Err("invalid file path: " + JoinPath(destination, entry.name))
    ensures r.Ok? ==> r.value.path == JoinPath(destination, entry.name) && (r.value.Directory? <==> entry.isDir)
    ensures r.Ok? <==> Contained(destination, entry.name) && entry.ioError.None?
  {
    var filePath := JoinPath(destination, entry.name);
    if !HasPrefix(filePath, Clean(destination) + "/") then Err("invalid file path: " + filePath)
    else if entry.ioError.Some? then Err(entry.ioError.value)
    else if entry.isDir then Ok(Directory(filePath))
    else Ok(RegularFile(filePath))
  }

  /** Under an absolute destination, whatever is extracted lies strictly below it. */
  lemma ExtractedBelow(entry: ZipEntry, destination: string)
    requires IsRooted(destination) && UnzipFile(entry, destination).Ok?
    ensures Below(destination, entry.name)
  {
    ContainedIff(destination, entry.name);
  }

  /** The outcome of extracting each entry on its own. */
  function Outcomes(entries: seq<ZipEntry>, destination: string): (rs: seq<Result<Extracted>>)
    ensures |rs| == |entries|
  {
    seq(|entries|, i requires 0 <= i < |entries| => UnzipFile(entries[i], destination))
  }

  /** The extracted results in order, up to the first error, and that error. */
  function Collect(rs: seq<Result<Extracted>>): (r: (seq<Extracted>, Option<string>))
    ensures |r.0| <= |rs|
    ensures r.1.None? <==> |r.0| == |rs|
  {
    if rs == [] then ([], None)
    else match rs[0]
      case Err(e) => ([], Some(e))
      case Ok(x) =>
        var rest := Collect(rs[1..]);
        ([x] + rest.0, rest.1)
  }

  /** Every result before the stopping point is kept, and the error is the first one. */
  lemma {:induction false} CollectInOrder(rs: seq<Result<Extracted>>)
    ensures forall i :: 0 <= i < |Collect(rs).0| ==> rs[i] == Ok(Collect(rs).0[i])
    ensures Collect(rs).1.Some? ==> rs[|Collect(rs).0|] == Err(Collect(rs).1.value)
    decreases |rs|
  {
    if rs != [] && rs[0].Ok? {
      var rest := Collect(rs[1..]);
      CollectInOrder(rs[1..]);
      var r := Collect(rs);
      assert r.0 == [rs[0].value] + rest.0;
      forall i | 0 <= i < |r.0|
        ensures rs[i] == Ok(r.0[i])
      {
        if i > 0 {
          assert r.0[i] == rest.0[i - 1] && rs[i] == rs[1..][i - 1];
        }
      }
      if r.1.Some? {
        assert rs[|r.0|] == rs[1..][|rest.0|];
      }
    }
  }

  /** The entries extracted, in archive order, up to the first failing one, and its error. */
  function ExtractAll(entries: seq<ZipEntry>, destination: string): (r: (seq<Extracted>, Option<string>))
    ensures |r.0| <= |entries|
    ensures r.1.None? <==> |r.0| == |entries|
  {
    Collect(Outcomes(entries, destination))
  }

  /** Extraction proceeds in archive order: every entry before the stopping point was
      extracted, and the error reported is the first failing entry's. */
  lemma ExtractAllInOrder(entries: seq<ZipEntry>, destination: string)
    ensures forall i :: 0 <= i < |ExtractAll(entries, destination).0| ==>
      UnzipFile(entries[i], destination) == Ok(ExtractAll(entries, destination).0[i])
    ensures ExtractAll(entries, destination).1.Some? ==>
      UnzipFile(entries[|ExtractAll(entries, destination).0|], destination) == Err(ExtractAll(entries, destination).1.value)
  {
    CollectInOrder(Outcomes(entries, destination));
  }

  /** Extending a run that has not failed by one more result. */
  lemma {:induction false} CollectSnoc(p: seq<Result<Extracted>>, r: Result<Extracted>)
    requires Collect(p).1.None?
    ensures r.Ok? ==> Collect(p + [r]) == (Collect(p).0 + [r.value], None)
    ensures r.Err? ==> Collect(p + [r]) == (Collect(p).0, Some(r.error))
    decreases |p|
  {
    if p == [] {
      assert p + [r] == [r] && [r][1..] == [];
      assert Collect(p) == ([], None) && Collect([r][1..]) == ([], None);
      if r.Ok? {
        assert [r][0] == r && [r.value] + [] == [r.value];
        assert Collect([r]) == ([r.value] + Collect([r][1..]).0, Collect([r][1..]).1);
        assert Collect(p).0 + [r.value] == [r.value];
      }
    } else {
      assert (p + [r])[0] == p[0] && (p + [r])[1..] == p[1..] + [r];
      CollectSnoc(p[1..], r);
      var x, rest := p[0].value, Collect(p[1..]).0;
      assert Collect(p).0 == [x] + rest;
      if r.Ok? {
        assert Collect(p + [r]).0 == [x] + (rest + [r.value]);
        assert [x] + (rest + [r.value]) == ([x] + rest) + [r.value];
      }
    }
  }

  /** Once a result has failed, what follows it is never looked at. */
  lemma {:induction false} CollectStops(p: seq<Result<Extracted>>, q: seq<Result<Extracted>>)
    requires Collect(p).1.Some?
    ensures Collect(p + q) == Collect(p)
    decreases |p|
  {
    assert (p + q)[0] == p[0];
    if p[0].Ok? {
      assert (p + q)[1..] == p[1..] + q;
      CollectStops(p[1..], q);
    }
  }

  /** One step of going through the results: an Ok result extends the run, an Err ends it. */
  lemma CollectAt(rs: seq<Result<Extracted>>, idx: nat)
    requires idx < |rs| && Collect(rs[..idx]).1.None?
    ensures rs[idx].Ok? ==> Collect(rs[..idx + 1]) == (Collect(rs[..idx]).0 + [rs[idx].value], None)
    ensures rs[idx].Err? ==> Collect(rs) == (Collect(rs[..idx]).0, Some(rs[idx].error))
  {
    var p, r, q := rs[..idx], rs[idx], rs[idx + 1..];
    SplitAt(rs, idx);
    CollectSnoc(p, r);
    if r.Err? {
      CollectStops(p + [r], q);
    }
  }

  lemma SplitAt<T>(s: seq<T>, i: nat)
    requires i < |s|
    ensures s[..i + 1] == s[..i] + [s[i]]
    ensures s == (s[..i] + [s[i]]) + s[i + 1..]
  {
  }

  /** What unzipSource reports: the profile name and the error. The name is the first entry's
      name, with one trailing "/" removed only when every entry was extracted. */
  function UnzipOutcome(archive: Result<seq<ZipEntry>>, destination: Result<string>): (string, Option<string>) {
    if archive.Err? then ("", Some(archive.error))
    else if destination.Err? then ("", Some(destination.error))
    else if archive.value == [] then ("", None)
    else
      var err := ExtractAll(archive.value, destination.value).1;
      if err.None? then (CutSuffix(archive.value[0].name, "/").0, None) else (archive.value[0].name, err)
  }

  /** The loop of unzipSource: the first entry's name is the profile; the entries are
      extracted in order until one fails. */
  method ExtractEntries(entries: seq<ZipEntry>, dest: string)
    returns (profile: string, err: Option<string>, extracted: seq<Extracted>)
    ensures profile == if entries == [] then "" else entries[0].name
    ensures extracted == ExtractAll(entries, dest).0 && err == ExtractAll(entries, dest).1
  {
    profile, extracted := "", [];
    ghost var rs := Outcomes(entries, dest);
    var idx := 0;
    while idx < |entries|
      invariant 0 <= idx <= |entries|
      invariant profile == if idx == 0 then "" else entries[0].name
      invariant extracted == Collect(rs[..idx]).0 && Collect(rs[..idx]).1.None?
    {
      if idx == 0 {
        profile := entries[0].name;
      }
      var r := UnzipFile(entries[idx], dest);
      assert r == rs[idx];
      CollectAt(rs, idx);
      if r.Err? {
        return profile, Some(r.error), extracted;
      }
      extracted := extracted + [r.value];
      idx := idx + 1;
    }
    assert rs[..idx] == rs;
    return profile, None, extracted;
  }

  /** unzipSource: opening the archive and making the destination absolute are outcomes given
      as `archive` and `destination`; then every entry is extracted in order, stopping at the
      first error, and on success the profile name loses a trailing "/". */
  method UnzipSource(archive: Result<seq<ZipEntry>>, destination: Result<string>)
    returns (profile: string, err: Option<string>, extracted: seq<Extracted>)
    ensures profile == UnzipOutcome(archive, destination).0 && err == UnzipOutcome(archive, destination).1
    ensures archive.Ok? && destination.Ok? ==>
      extracted == ExtractAll(archive.value, destination.value).0 && err == ExtractAll(archive.value, destination.value).1
    ensures archive.Err? || destination.Err? ==> extracted == []
    ensures archive.Ok? && archive.value == [] ==> profile == ""
  {
    profile, extracted := "", [];
    if archive.Err? {
      return profile, Some(archive.error), extracted;
    }
    if destination.Err? {
      return profile, Some(destination.error), extracted;
    }
    profile, err, extracted := ExtractEntries(archive.value, destination.value);
    if err.Some? {
      return;
    }
    profile := CutSuffix(profile, "/").0;
  }

  /** The path LoadProfiles builds for a directory entry. */
  function ProfilePath(name: string): string {
    ProfilesDir + "/" + name
  }

  /** A directory entry is taken as an archive exactly when its name ends in ".zip". */
  lemma ZipEntryName(name: string)
    ensures Ext(ProfilePath(name)) == ZipExt <==> HasSuffix(name, ZipExt)
  {
    var p := ProfilePath(name);
    ExtZip(p);
    if HasSuffix(p, ZipExt) {
      var slash := |p| - |name| - 1;
      assert p[slash] == '/';
      assert forall j :: |p| - 4 <= j < |p| ==> p[j] == ZipExt[j - (|p| - 4)];
      assert slash < |p| - 4;
      assert p[|p| - 4..] == name[|name| - 4..];
    }
    if HasSuffix(name, ZipExt) {
      assert p[|p| - 4..] == name[|name| - 4..];
    }
  }

  /** LoadProfiles on one directory entry: a ".zip" entry whose archive extracts maps its tag
      (the name without ".zip") to the archive's profile name; any other entry changes nothing. */
  function LoadStep(m: map<string, string>, name: string,
                    archiveOf: string -> Result<seq<ZipEntry>>, destination: Result<string>): map<string, string>
  {
    var filePath := ProfilePath(name);
    var outcome := UnzipOutcome(archiveOf(filePath), destination);
    if Ext(filePath) == ZipExt && outcome.1.None? then m[CutSuffix(name, ZipExt).0 := outcome.0] else m
  }

  /** The map LoadProfiles leaves after going through the directory entries `files` in order. */
  function Loaded(m: map<string, string>, files: seq<string>,
                  archiveOf: string -> Result<seq<ZipEntry>>, destination: Result<string>): map<string, string>
    decreases |files|
  {
    if files == [] then m
    else Loaded(LoadStep(m, files[0], archiveOf, destination), files[1..], archiveOf, destination)
  }

  /** A tag is loaded for an entry when the entry is a ".zip" file, the tag is its name without
      ".zip", and its archive extracts without error. */
  predicate LoadsTag(name: string, tag: string, archiveOf: string -> Result<seq<ZipEntry>>, destination: Result<string>) {
    HasSuffix(name, ZipExt) && name == tag + ZipExt &&
    UnzipOutcome(archiveOf(ProfilePath(name)), destination).1.None?
  }

  /** One entry adds exactly the tag it loads, if any, and keeps every other. */
  lemma LoadStepKeys(m: map<string, string>, name: string,
                     archiveOf: string -> Result<seq<ZipEntry>>, destination: Result<string>)
    ensures forall tag :: tag in LoadStep(m, name, archiveOf, destination) <==>
      tag in m || LoadsTag(name, tag, archiveOf, destination)
  {
    ZipEntryName(name);
    forall tag ensures tag in LoadStep(m, name, archiveOf, destination) <==>
      tag in m || LoadsTag(name, tag, archiveOf, destination)
    {
      if LoadsTag(name, tag, archiveOf, destination) {
        assert CutSuffix(name, ZipExt).0 == tag;
      }
    }
  }

  lemma LoadsTagShift(files: seq<string>, tag: string,
                      archiveOf: string -> Result<seq<ZipEntry>>, destination: Result<string>)
    requires files != []
    ensures (exists i :: 0 <= i < |files| && LoadsTag(files[i], tag, archiveOf, destination)) <==>
      LoadsTag(files[0], tag, archiveOf, destination) ||
      exists i :: 0 <= i < |files[1..]| && LoadsTag(files[1..][i], tag, archiveOf, destination)
  {
    if exists i :: 0 <= i < |files| && LoadsTag(files[i], tag, archiveOf, destination) {
      var i :| 0 <= i < |files| && LoadsTag(files[i], tag, archiveOf, destination);
      if i > 0 {
        assert files[1..][i - 1] == files[i];
      }
    }
    if exists i :: 0 <= i < |files[1..]| && LoadsTag(files[1..][i], tag, archiveOf, destination) {
      var i :| 0 <= i < |files[1..]| && LoadsTag(files[1..][i], tag, archiveOf, destination);
      assert files[i + 1] == files[1..][i];
    }
  }

  /** The tags after loading are the tags before plus the tags of the entries that loaded. */
  lemma {:induction false} LoadedKeys(m: map<string, string>, files: seq<string>,
                                      archiveOf: string -> Result<seq<ZipEntry>>, destination: Result<string>)
    ensures forall tag :: tag in Loaded(m, files, archiveOf, destination) <==>
      tag in m || exists i :: 0 <= i < |files| && LoadsTag(files[i], tag, archiveOf, destination)
    decreases |files|
  {
    if files != [] {
      var next := LoadStep(m, files[0], archiveOf, destination);
      LoadedKeys(next, files[1..], archiveOf, destination);
      LoadStepKeys(m, files[0], archiveOf, destination);
      forall tag ensures (exists i :: 0 <= i < |files| && LoadsTag(files[i], tag, archiveOf, destination)) <==>
        LoadsTag(files[0], tag, archiveOf, destination) ||
        exists i :: 0 <= i < |files[1..]| && LoadsTag(files[1..][i], tag, archiveOf, destination)
      {
        LoadsTagShift(files, tag, archiveOf, destination);
      }
    }
  }

  /** The process-wide tag -> profile map and the once-guard of LoadProfiles. */
  class ProfileStore {
    var tagProfileMap: map<string, string>
    var loaded: bool

    constructor ()
      ensures tagProfileMap == map[] && !loaded
    {
      tagProfileMap := map[];
      loaded := false;
    }

    /** GetProfileByTag: the profile stored for `tag` and true, or "" and false. */
    method GetProfileByTag(tag: string) returns (profile: string, found: bool)
      ensures found <==> tag in tagProfileMap
      ensures found ==> profile == tagProfileMap[tag]
      ensures !found ==> profile == ""
    {
      if tag in tagProfileMap {
        return tagProfileMap[tag], true;
      }
      return "", false;
    }

    /** LoadProfiles: runs once. With custom profiles disabled, or when the profiles directory
        has to be created or cannot be read, nothing is loaded; otherwise every ".zip" entry of
        the directory is extracted and, when that succeeds, its tag is mapped to its profile. */
    method LoadProfiles(enableCustomChromeProfiles: bool, dirExists: bool, readDir: Result<seq<string>>,
                        archiveOf: string -> Result<seq<ZipEntry>>, destination: Result<string>)
      modifies this
      ensures loaded
      ensures old(loaded) || !enableCustomChromeProfiles || !dirExists || readDir.Err? ==>
        tagProfileMap == old(tagProfileMap)
      ensures !old(loaded) && enableCustomChromeProfiles && dirExists && readDir.Ok? ==>
        tagProfileMap == Loaded(old(tagProfileMap), readDir.value, archiveOf, destination)
    {
      if loaded {
        return;
      }
      loaded := true;
      if !enableCustomChromeProfiles || !dirExists || readDir.Err? {
        return;
      }
      var files := readDir.value;
      assert files[0..] == files;
      for i := 0 to |files|
        invariant loaded
        invariant Loaded(tagProfileMap, files[i..], archiveOf, destination) ==
          Loaded(old(tagProfileMap), files, archiveOf, destination)
      {
        assert files[i..][1..] == files[i + 1..];
        var filePath := ProfilePath(files[i]);
        if Ext(filePath) == ZipExt {
          var profile, err, _ := UnzipSource(archiveOf(filePath), destination);
          var profileName := CutSuffix(files[i], ZipExt).0;
          if err.None? {
            tagProfileMap := tagProfileMap[profileName := profile];
          }
        }
      }
      assert files[|files|..] == [];
    }
  }
}
