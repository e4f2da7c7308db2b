/** Lists of names, terms and card numbers typed in by people (normalizeNames in
    lease-lifecycle.service.ts, normalizeTerms in contracts.service.ts). */
module Names {
  import opened Csv
  import CsvRoundTrip

  /** String.prototype.toLowerCase; nothing is assumed about it. */
  type Casing = string -> string

  predicate Repeats(values: seq<string>, lower: Casing, key: string) {
    exists k :: 0 <= k < |values| && Trim(values[k]) != "" && lower(Trim(values[k])) == key
  }

  /** Trimmed, blanks dropped, and of spellings that differ in case only the first kept. */
  function Cleaned(values: seq<string>, lower: Casing): seq<string> {
    if values == [] then []
    else
      var n := |values| - 1;
      var rest, name := Cleaned(values[..n], lower), Trim(values[n]);
      if name == "" || Repeats(values[..n], lower, lower(name)) then rest else rest + [name]
  }

  method NormalizeNames(values: seq<string>, lower: Casing) returns (deduped: seq<string>)
    ensures deduped == Cleaned(values, lower)
  {
    deduped := [];
    var seen: set<string> := {};
    for i := 0 to |values|
      invariant deduped == Cleaned(values[..i], lower)
      invariant forall key :: key in seen <==> Repeats(values[..i], lower, key)
    {
      var trimmed := Trim(values[i]);
      assert values[..i + 1][..i] == values[..i];
      forall key {
        OneMoreValue(values, i, lower, key);
      }
      if trimmed == "" {
        continue;
      }
      var key := lower(trimmed);
      if key in seen {
        continue;
      }
      seen := seen + {key};
      deduped := deduped + [trimmed];
    }
    assert values[..|values|] == values;
  }

  lemma OneMoreValue(values: seq<string>, i: nat, lower: Casing, key: string)
    requires i < |values|
    ensures Repeats(values[..i + 1], lower, key) <==>
            Repeats(values[..i], lower, key) || (Trim(values[i]) != "" && lower(Trim(values[i])) == key)
  {
    var more := values[..i + 1];
    assert more[i] == values[i];
    if Repeats(values[..i], lower, key) {
      var k :| 0 <= k < i && Trim(values[..i][k]) != "" && lower(Trim(values[..i][k])) == key;
      assert more[k] == values[..i][k];
    }
    if Repeats(more, lower, key) {
      var k :| 0 <= k < |more| && Trim(more[k]) != "" && lower(Trim(more[k])) == key;
      assert k < i ==> values[..i][k] == more[k];
    }
  }

  /** Every name typed in survives in one spelling, and only in one. */
  lemma {:induction false} NamesAreKeptOnce(values: seq<string>, lower: Casing)
    ensures var names := Cleaned(values, lower);
            && (forall key :: Repeats(values, lower, key) <==> exists k :: 0 <= k < |names| && lower(names[k]) == key)
            && (forall i, j :: 0 <= i < j < |names| ==> lower(names[i]) != lower(names[j]))
            && (forall k :: 0 <= k < |names| ==> names[k] != "" && Trim(names[k]) == names[k])
            && |names| <= |values|
  {
    if values != [] {
      var n := |values| - 1;
      var rest, name := Cleaned(values[..n], lower), Trim(values[n]);
      NamesAreKeptOnce(values[..n], lower);
      CsvRoundTrip.TrimIdempotent(values[n]);
      var names := Cleaned(values, lower);
      forall key
        ensures Repeats(values, lower, key) <==> exists k :: 0 <= k < |names| && lower(names[k]) == key
      {
        assert values[..n + 1] == values;
        OneMoreValue(values, n, lower, key);
        if names != rest {
          assert names[|rest|] == name;
          assert forall k :: 0 <= k < |rest| ==> names[k] == rest[k];
        }
      }
    }
  }

  /** No entry is blank, and no two are the same but for case. */
  ghost predicate Unrepeated(values: seq<string>, lower: Casing) {
    && (forall k :: 0 <= k < |values| ==> Trim(values[k]) != "")
    && (forall i, j :: 0 <= i < j < |values| ==> lower(Trim(values[i])) != lower(Trim(values[j])))
  }

  lemma OneMoreUnrepeated(values: seq<string>, lower: Casing)
    requires values != []
    ensures var n := |values| - 1;
            var name := Trim(values[n]);
            Unrepeated(values, lower) <==>
            (Unrepeated(values[..n], lower) && name != "" && !Repeats(values[..n], lower, lower(name)))
  {
    var n := |values| - 1;
    var init := values[..n];
    assert forall k :: 0 <= k < n ==> init[k] == values[k];
  }

  /** A list loses nothing exactly when no entry repeats another or is blank: the check by
      which a move-in refuses repeated card and sticker numbers. */
  lemma {:induction false} NothingIsLostExactly(values: seq<string>, lower: Casing)
    ensures |Cleaned(values, lower)| == |values| <==> Unrepeated(values, lower)
  {
    if values != [] {
      var init := values[..|values| - 1];
      NothingIsLostExactly(init, lower);
      NamesAreKeptOnce(init, lower);
      OneMoreUnrepeated(values, lower);
    }
  }
}
