/** The light-settings file of `SaveLightSettings` and `LoadLightSettings`
    (BakingLab.cpp, lines 98-224). A file holds a header of `{Name, DataSize}`
    records, one per light setting, followed by the serialised values in the
    same order. Loading walks the header: a record naming a setting that
    exists with that value size is read into the setting, any other record is
    skipped by reading exactly `DataSize` bytes into a 1024-byte scratch
    buffer. Settings are modelled as a map from name to serialised value,
    whose length is the setting's `SerializedValueSize()`; the header is taken
    as already decoded and the values as one byte stream. */
module LightSettings {
  import opened Common

  type byte = x: int | 0 <= x < 256

  /** `sizeof(dummyBuffer)`: the largest record a load can skip. */
  const SKIP_BUFFER_SIZE: nat := 1024

  datatype SettingInfo = SettingInfo(name: string, dataSize: nat)

  datatype SettingsFile = SettingsFile(header: seq<SettingInfo>, payload: seq<byte>)

  /** Why a load stops early: the stream ended inside a record's data, or a
      record to be skipped is larger than the scratch buffer. */
  datatype LoadError = UnexpectedEndOfFile(name: string) | OversizedSkip(name: string)

  /** The settings after a load, the payload bytes taken by the records that
      completed, and the error that stopped the load, if any. */
  datatype LoadResult = LoadResult(values: map<string, seq<byte>>, consumed: nat, error: Option<LoadError>)

  predicate Saveable(values: map<string, seq<byte>>, names: seq<string>)
  {
    forall i :: 0 <= i < |names| ==> names[i] in values && |values[names[i]]| > 0
  }

  /** The header `SaveLightSettings` writes. */
  function SavedHeader(values: map<string, seq<byte>>, names: seq<string>): seq<SettingInfo>
    requires Saveable(values, names)
  {
    seq(|names|, i requires 0 <= i < |names| => SettingInfo(names[i], |values[names[i]]|))
  }

  /** The values `SaveLightSettings` writes after the header, in order. */
  function SavedPayload(values: map<string, seq<byte>>, names: seq<string>): seq<byte>
    requires Saveable(values, names)
    decreases |names|
  {
    if |names| == 0 then [] else SavedPayload(values, names[..|names| - 1]) + values[names[|names| - 1]]
  }

  function SavedFile(values: map<string, seq<byte>>, names: seq<string>): SettingsFile
    requires Saveable(values, names)
  {
    SettingsFile(SavedHeader(values, names), SavedPayload(values, names))
  }

  /** The record is skipped: there is no setting of that name, or its value
      size differs. */
  predicate Skipped(values: map<string, seq<byte>>, info: SettingInfo)
  {
    !(info.name in values && |values[info.name]| == info.dataSize)
  }

  /** The load of lines 145-158, record by record. */
  function LoadRecords(values: map<string, seq<byte>>, header: seq<SettingInfo>, payload: seq<byte>): LoadResult
    decreases |header|
  {
    if |header| == 0 then LoadResult(values, 0, None)
    else
      var info := header[0];
      if Skipped(values, info) && info.dataSize > SKIP_BUFFER_SIZE then LoadResult(values, 0, Some(OversizedSkip(info.name)))
      else if info.dataSize > |payload| then LoadResult(values, 0, Some(UnexpectedEndOfFile(info.name)))
      else
        var next := if Skipped(values, info) then values else values[info.name := payload[..info.dataSize]];
        var rest := LoadRecords(next, header[1..], payload[info.dataSize..]);
        rest.(consumed := info.dataSize + rest.consumed)
  }

  function SumSizes(header: seq<SettingInfo>): nat
    decreases |header|
  {
    if |header| == 0 then 0 else header[0].dataSize + SumSizes(header[1..])
  }

  /** Writes the header and then the values (lines 200-214). */
  method SaveLightSettings(values: map<string, seq<byte>>, lightSettings: seq<string>) returns (file: SettingsFile)
    requires Saveable(values, lightSettings)
    ensures file == SavedFile(values, lightSettings)
    ensures |file.header| == |lightSettings|
    ensures forall i :: 0 <= i < |lightSettings| ==>
      file.header[i].name == lightSettings[i] && file.header[i].dataSize == |values[lightSettings[i]]| > 0
  {
    var header: seq<SettingInfo> := [];
    for i := 0 to |lightSettings|
      invariant |header| == i
      invariant forall j :: 0 <= j < i ==> header[j] == SettingInfo(lightSettings[j], |values[lightSettings[j]]|)
    {
      header := header + [SettingInfo(lightSettings[i], |values[lightSettings[i]]|)];
    }

    var payload: seq<byte> := [];
    for i := 0 to |lightSettings|
      invariant payload == SavedPayload(values, lightSettings[..i])
    {
      assert lightSettings[..i + 1][..i] == lightSettings[..i];
      payload := payload + values[lightSettings[i]];
    }
    assert lightSettings[..|lightSettings|] == lightSettings;
    file := SettingsFile(header, payload);
  }

  /** A load never adds or removes a setting, nor changes a value's size. */
  lemma {:induction false} LoadPreservesShape(values: map<string, seq<byte>>, header: seq<SettingInfo>, payload: seq<byte>)
    ensures LoadRecords(values, header, payload).values.Keys == values.Keys
    ensures forall k :: k in values ==> |LoadRecords(values, header, payload).values[k]| == |values[k]|
    decreases |header|
  {
    if |header| > 0 {
      var info := header[0];
      if !(Skipped(values, info) && info.dataSize > SKIP_BUFFER_SIZE) && info.dataSize <= |payload| {
        var next := if Skipped(values, info) then values else values[info.name := payload[..info.dataSize]];
        LoadPreservesShape(next, header[1..], payload[info.dataSize..]);
      }
    }
  }

  /** Only records naming an existing setting with its value size change
      anything: a setting whose value changed was named by such a record. */
  lemma {:induction false} OnlyMatchingRecordsApply(values: map<string, seq<byte>>, header: seq<SettingInfo>, payload: seq<byte>)
    ensures forall k :: k in values && k in LoadRecords(values, header, payload).values
                        && LoadRecords(values, header, payload).values[k] != values[k] ==>
      exists i :: 0 <= i < |header| && header[i].name == k && !Skipped(values, header[i])
    decreases |header|
  {
    LoadPreservesShape(values, header, payload);
    if |header| > 0 {
      var info := header[0];
      if !(Skipped(values, info) && info.dataSize > SKIP_BUFFER_SIZE) && info.dataSize <= |payload| {
        var next := if Skipped(values, info) then values else values[info.name := payload[..info.dataSize]];
        OnlyMatchingRecordsApply(next, header[1..], payload[info.dataSize..]);
        forall k | k in values && k in LoadRecords(values, header, payload).values
                   && LoadRecords(values, header, payload).values[k] != values[k]
          ensures exists i :: 0 <= i < |header| && header[i].name == k && !Skipped(values, header[i])
        {
          if k == info.name && !Skipped(values, info) {
            assert header[0].name == k;
          } else {
            assert next[k] == values[k];
            var i :| 0 <= i < |header[1..]| && header[1..][i].name == k && !Skipped(next, header[1..][i]);
            assert header[i + 1].name == k;
          }
        }
      }
    }
  }

  /** A load completes exactly when the payload holds every record's data and
      every record to be skipped fits the scratch buffer; it then takes
      exactly `DataSize` bytes per record. */
  lemma {:induction false} LoadSucceedsIff(values: map<string, seq<byte>>, header: seq<SettingInfo>, payload: seq<byte>)
    ensures LoadRecords(values, header, payload).error == None
            <==> (SumSizes(header) <= |payload|
                  && forall i :: 0 <= i < |header| && Skipped(values, header[i]) ==> header[i].dataSize <= SKIP_BUFFER_SIZE)
    ensures LoadRecords(values, header, payload).error == None ==> LoadRecords(values, header, payload).consumed == SumSizes(header)
    decreases |header|
  {
    if |header| > 0 {
      var info := header[0];
      if !(Skipped(values, info) && info.dataSize > SKIP_BUFFER_SIZE) && info.dataSize <= |payload| {
        var next := if Skipped(values, info) then values else values[info.name := payload[..info.dataSize]];
        LoadSucceedsIff(next, header[1..], payload[info.dataSize..]);
        assert forall j :: 0 <= j < |header[1..]| ==> (Skipped(next, header[1..][j]) <==> Skipped(values, header[j + 1]));
        assert forall i :: 1 <= i < |header| ==> header[i] == header[1..][i - 1];
      } else if info.dataSize > |payload| {
        assert SumSizes(header) >= info.dataSize;
      }
    }
  }

  /** Splitting the saved values after the first setting. */
  lemma {:induction false} SavedPayloadHead(values: map<string, seq<byte>>, names: seq<string>)
    requires Saveable(values, names) && |names| > 0
    ensures SavedPayload(values, names) == values[names[0]] + SavedPayload(values, names[1..])
    decreases |names|
  {
    if |names| > 1 {
      var init := names[..|names| - 1];
      SavedPayloadHead(values, init);
      assert init[1..] == names[1..][..|names[1..]| - 1];
    } else {
      assert names[..0] == [];
    }
  }

  /** The settings a load of a saved file leaves: every setting named in
      `names` that exists in `target` with the saved value's size takes the
      saved value, every other keeps its own. */
  function Restored(target: map<string, seq<byte>>, saved: map<string, seq<byte>>, names: seq<string>): map<string, seq<byte>>
  {
    map k | k in target :: if k in names && k in saved && |saved[k]| == |target[k]| then saved[k] else target[k]
  }

  /** The saved file seen from its first record: the record of the first
      setting, its value, and the file saved from the other settings. */
  lemma {:induction false} SavedFileHead(saved: map<string, seq<byte>>, names: seq<string>)
    requires Saveable(saved, names) && |names| > 0
    ensures var f, g := SavedFile(saved, names), SavedFile(saved, names[1..]);
      var size := |saved[names[0]]|;
      && f.header[0] == SettingInfo(names[0], size)
      && f.header[1..] == g.header
      && size <= |f.payload|
      && f.payload[..size] == saved[names[0]]
      && f.payload[size..] == g.payload
  {
    SavedPayloadHead(saved, names);
  }

  /** Restoring the first setting and then the others is restoring them all. */
  lemma RestoredStep(target: map<string, seq<byte>>, saved: map<string, seq<byte>>, names: seq<string>)
    requires Saveable(saved, names) && |names| > 0
    ensures var info := SettingInfo(names[0], |saved[names[0]]|);
      var next := if Skipped(target, info) then target else target[names[0] := saved[names[0]]];
      Restored(next, saved, names[1..]) == Restored(target, saved, names)
  {
    var n0, rest := names[0], names[1..];
    var info := SettingInfo(n0, |saved[n0]|);
    var next := if Skipped(target, info) then target else target[n0 := saved[n0]];
    forall k | k in target
      ensures Restored(next, saved, rest)[k] == Restored(target, saved, names)[k]
    {
      assert k in names <==> k == n0 || k in rest;
    }
  }

  /** Loading a saved file restores the saved light settings: every setting
      that still exists with the same value size gets its saved value, all
      others are left alone, and the whole file is consumed without error,
      provided each setting that no longer matches fits the scratch buffer. */
  lemma {:induction false} LoadAfterSave(saved: map<string, seq<byte>>, target: map<string, seq<byte>>, names: seq<string>)
    requires Saveable(saved, names)
    requires forall i :: 0 <= i < |names| && Skipped(target, SettingInfo(names[i], |saved[names[i]]|))
               ==> |saved[names[i]]| <= SKIP_BUFFER_SIZE
    ensures var f := SavedFile(saved, names);
      LoadRecords(target, f.header, f.payload) == LoadResult(Restored(target, saved, names), |f.payload|, None)
    decreases |names|
  {
    if |names| == 0 {
      assert Restored(target, saved, names) == target;
    } else {
      var n0, rest := names[0], names[1..];
      var info := SettingInfo(n0, |saved[n0]|);
      var next := if Skipped(target, info) then target else target[n0 := saved[n0]];
      SavedFileHead(saved, names);
      RestoredStep(target, saved, names);
      forall i | 0 <= i < |rest| && Skipped(next, SettingInfo(rest[i], |saved[rest[i]]|))
        ensures |saved[rest[i]]| <= SKIP_BUFFER_SIZE
      {
        assert names[i + 1] == rest[i];
      }
      assert names[0] == n0;
      LoadAfterSave(saved, next, rest);
    }
  }

  /** The settings registry of the application, by name. */
  class SettingsRegistry {
    var values: map<string, seq<byte>>

    constructor (initial: map<string, seq<byte>>)
      ensures values == initial
    {
      values := initial;
    }

    /** Reads a light-settings file (lines 138-165), stopping at the first
        error; records already read keep their effect. */
    method LoadLightSettings(file: SettingsFile) returns (consumed: nat, error: Option<LoadError>)
      modifies this
      ensures values == LoadRecords(old(values), file.header, file.payload).values
      ensures consumed == LoadRecords(old(values), file.header, file.payload).consumed
      ensures error == LoadRecords(old(values), file.header, file.payload).error
    {
      ghost var total := LoadRecords(values, file.header, file.payload);
      var pos := 0;
      var i := 0;
      while i < |file.header|
        invariant 0 <= i <= |file.header| && 0 <= pos <= |file.payload|
        invariant total.values == LoadRecords(values, file.header[i..], file.payload[pos..]).values
        invariant total.error == LoadRecords(values, file.header[i..], file.payload[pos..]).error
        invariant total.consumed == pos + LoadRecords(values, file.header[i..], file.payload[pos..]).consumed
        decreases |file.header| - i
      {
        var info := file.header[i];
        assert file.header[i..][0] == info && file.header[i..][1..] == file.header[i + 1..];
        var matches := info.name in values && |values[info.name]| == info.dataSize;
        if !matches {
          if info.dataSize > SKIP_BUFFER_SIZE {
            return pos, Some(OversizedSkip(info.name));
          }
          if info.dataSize > |file.payload| - pos {
            return pos, Some(UnexpectedEndOfFile(info.name));
          }
          assert file.payload[pos..][info.dataSize..] == file.payload[pos + info.dataSize..];
          pos := pos + info.dataSize;
          i := i + 1;
          continue;
        }
        if info.dataSize > |file.payload| - pos {
          return pos, Some(UnexpectedEndOfFile(info.name));
        }
        assert file.payload[pos..][..info.dataSize] == file.payload[pos..pos + info.dataSize];
        assert file.payload[pos..][info.dataSize..] == file.payload[pos + info.dataSize..];
        values := values[info.name := file.payload[pos..pos + info.dataSize]];
        pos := pos + info.dataSize;
        i := i + 1;
      }
      return pos, None;
    }
  }
}
