/** The webhook that puts promtail's units and files into an operating system config. */
module OscEnsurer {
  import opened Upsert
  import opened Promtail

  /** A key of the ConfigMap's binary data, unmarshalled: a missing key reads as no items. */
  datatype Parsed<T> = Malformed | Items(items: seq<T>)

  datatype BinaryData = NoData | BinaryData(promtailUnits: Parsed<Unit>, promtailFiles: Parsed<File>)

  /** Reading the cluster and the ConfigMap `promtail-config`; one that is not found reads as one without data. */
  datatype Fetch = FetchFailed | Fetched(data: BinaryData)

  /** The lists that the callers pass by pointer. */
  class OperatingSystemConfig {
    var units: seq<Unit>
    var files: seq<File>

    /** `appendUniqueUnit` */
    method AppendUniqueUnit(unit: Unit)
      modifies `units
      ensures units == Put(old(units), UnitKey, unit)
    {
      var resUnits: seq<Unit> := [];
      var i := 0;
      while i < |units|
        invariant 0 <= i <= |units| && units == old(units)
        invariant resUnits == Without(units[..i], UnitKey, unit.name)
      {
        WithoutSnoc(units[..i], units[i], UnitKey, unit.name);
        assert units[..i + 1] == units[..i] + [units[i]];
        if units[i].name != unit.name {
          resUnits := resUnits + [units[i]];
        }
        i := i + 1;
      }
      assert units[..i] == units;
      assert UnitKey(unit) == unit.name;
      units := resUnits + [unit];
    }

    /** `appendUniqueFile` */
    method AppendUniqueFile(file: File)
      modifies `files
      ensures files == Put(old(files), FileKey, file)
    {
      var resFiles: seq<File> := [];
      var i := 0;
      while i < |files|
        invariant 0 <= i <= |files| && files == old(files)
        invariant resFiles == Without(files[..i], FileKey, file.path)
      {
        WithoutSnoc(files[..i], files[i], FileKey, file.path);
        assert files[..i + 1] == files[..i] + [files[i]];
        if files[i].path != file.path {
          resFiles := resFiles + [files[i]];
        }
        i := i + 1;
      }
      assert files[..i] == files;
      assert FileKey(file) == file.path;
      files := resFiles + [file];
    }

    /** `EnsureAdditionalUnits`: the closed form of the upsert, or an error and no change. */
    method EnsureAdditionalUnits(fetch: Fetch) returns (ok: bool)
      modifies `units
      ensures forall added, others :: fetch == Fetched(BinaryData(Items(added), others)) ==>
        ok && units == Untouched(old(units), UnitKey, added) + LastOnes(UnitKey, added)
      ensures fetch == Fetched(NoData) ==> ok && units == old(units)
      ensures fetch == FetchFailed ==> !ok && units == old(units)
      ensures forall others :: fetch == Fetched(BinaryData(Malformed, others)) ==> !ok && units == old(units)
    {
      if fetch.FetchFailed? {
        return false;
      }
      var unitsToAdd: seq<Unit> := [];
      if fetch.data.BinaryData? {
        if fetch.data.promtailUnits.Malformed? {
          return false;
        }
        unitsToAdd := fetch.data.promtailUnits.items;
      }
      ghost var before := units;
      var i := 0;
      while i < |unitsToAdd|
        invariant 0 <= i <= |unitsToAdd|
        invariant PutAll(units, UnitKey, unitsToAdd[i..]) == PutAll(before, UnitKey, unitsToAdd)
      {
        assert unitsToAdd[i..][0] == unitsToAdd[i] && unitsToAdd[i..][1..] == unitsToAdd[i + 1..];
        AppendUniqueUnit(unitsToAdd[i]);
        i := i + 1;
      }
      UntouchedIdle(before, UnitKey);
      ClosedForm(before, UnitKey, unitsToAdd);
      return true;
    }

    /** `EnsureAdditionalFiles` */
    method EnsureAdditionalFiles(fetch: Fetch) returns (ok: bool)
      modifies `files
      ensures forall added, others :: fetch == Fetched(BinaryData(others, Items(added))) ==>
        ok && files == Untouched(old(files), FileKey, added) + LastOnes(FileKey, added)
      ensures fetch == Fetched(NoData) ==> ok && files == old(files)
      ensures fetch == FetchFailed ==> !ok && files == old(files)
      ensures forall others :: fetch == Fetched(BinaryData(others, Malformed)) ==> !ok && files == old(files)
    {
      if fetch.FetchFailed? {
        return false;
      }
      var filesToAdd: seq<File> := [];
      if fetch.data.BinaryData? {
        if fetch.data.promtailFiles.Malformed? {
          return false;
        }
        filesToAdd := fetch.data.promtailFiles.items;
      }
      ghost var before := files;
      var i := 0;
      while i < |filesToAdd|
        invariant 0 <= i <= |filesToAdd|
        invariant PutAll(files, FileKey, filesToAdd[i..]) == PutAll(before, FileKey, filesToAdd)
      {
        assert filesToAdd[i..][0] == filesToAdd[i] && filesToAdd[i..][1..] == filesToAdd[i + 1..];
        AppendUniqueFile(filesToAdd[i]);
        i := i + 1;
      }
      UntouchedIdle(before, FileKey);
      ClosedForm(before, FileKey, filesToAdd);
      return true;
    }
  }

  lemma {:induction false} WithoutSnoc<T>(items: seq<T>, x: T, key: T -> string, k: string)
    ensures Without(items + [x], key, k) == Without(items, key, k) + (if key(x) != k then [x] else [])
  {
    if items == [] {
      assert items + [x] == [x] && [x][1..] == [];
    } else {
      WithoutSnoc(items[1..], x, key, k);
      var all, first := items + [x], if key(items[0]) != k then [items[0]] else [];
      assert all[0] == items[0] && all[1..] == items[1..] + [x];
      assert Without(all, key, k) == first + Without(all[1..], key, k);
    }
  }
}
