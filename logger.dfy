/** The logger's field map: the fields passed with a message, merged in order,
    with the caller and the message on top. */
module Logger {
  import opened Formatter
  import Strs

  /** The fields of `others` merged left to right: a later map's value for a
      key replaces an earlier one's. */
  function Merged(others: seq<map<string, Value>>): map<string, Value>
  {
    if others == [] then map[] else Merged(others[..|others| - 1]) + others[|others| - 1]
  }

  /** The merge holds exactly the keys of the maps merged. */
  lemma {:induction false} MergedKeys(others: seq<map<string, Value>>, k: string)
    ensures k in Merged(others) <==> exists i :: 0 <= i < |others| && k in others[i]
  {
    if others != [] {
      var init := others[..|others| - 1];
      MergedKeys(init, k);
      if k in Merged(others) && k !in others[|others| - 1] {
        var i :| 0 <= i < |init| && k in init[i];
        assert others[i] == init[i];
      }
      if exists i :: 0 <= i < |others| && k in others[i] {
        var i :| 0 <= i < |others| && k in others[i];
        if i < |others| - 1 {
          assert init[i] == others[i];
        }
      }
    }
  }

  /** A key's value comes from the last map that holds it. */
  lemma {:induction false} MergedLastWins(others: seq<map<string, Value>>, i: nat, k: string)
    requires i < |others| && k in others[i]
    requires forall j :: i < j < |others| ==> k !in others[j]
    ensures k in Merged(others) && Merged(others)[k] == others[i][k]
  {
    if i < |others| - 1 {
      var init := others[..|others| - 1];
      assert init[i] == others[i];
      MergedLastWins(init, i, k);
    }
  }

  /** `createMap`: copies every map of `others`, in order, into a fresh map,
      then sets "caller" and "message", overriding whatever the maps held. */
  method CreateMap(message: string, caller: string, others: seq<map<string, Value>>) returns (log: map<string, Value>)
    ensures log == Merged(others)["caller" := StrValue(caller)]["message" := StrValue(message)]
  {
    log := map[];
    for i := 0 to |others|
      invariant log == Merged(others[..i])
    {
      assert others[..i + 1][..i] == others[..i];
      log := CopyFields(log, others[i]);
    }
    assert others[..|others|] == others;
    log := log["caller" := StrValue(caller)];
    log := log["message" := StrValue(message)];
  }

  /** The inner loop of `createMap`: every key of `other` is written into
      `log`, replacing the value already there. */
  method CopyFields(log: map<string, Value>, other: map<string, Value>) returns (merged: map<string, Value>)
    ensures merged == log + other
  {
    merged := log;
    var remaining := other.Keys;
    while remaining != {}
      invariant remaining <= other.Keys
      invariant merged.Keys == log.Keys + (other.Keys - remaining)
      invariant forall k :: k in other && k !in remaining ==> merged[k] == other[k]
      invariant forall k :: k in log && (k !in other || k in remaining) ==> merged[k] == log[k]
      decreases remaining
    {
      var k :| k in remaining;
      merged := merged[k := other[k]];
      remaining := remaining - {k};
    }
    assert merged.Keys == (log + other).Keys;
  }

  /** The caller string the logger builds: the file, a colon and the line. */
  function CallerString(file: string, line: int): string
  {
    file + ":" + Strs.Itoa(line)
  }

  /** Its reserved fields make the formatter show the logged message and link
      to the calling file and line, whatever the other fields hold. */
  lemma {:induction false} LoggedLineShowsCaller(level: Level, entryMessage: string, message: string,
                                                 file: string, line: int, others: seq<map<string, Value>>)
    requires ':' !in file && file != UnknownFile
    ensures var data := Merged(others)["caller" := StrValue(CallerString(file, line))]["message" := StrValue(message)];
      var entry := Entry(level, entryMessage, data);
      && MessageOf(entry) == message
      && FileLink(entry) == "file://" + file + ":" + Strs.Itoa(line)
  {
    Strs.ItoaNoSeparator(line, ':');
    ParseCallerRoundTrip(file, Strs.Itoa(line));
  }
}
