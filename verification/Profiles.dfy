/** The list of speech-to-text profiles: adding, deleting and switching keep it one that can be run. */
module Profiles {
  import opened Numerals
  import opened Wrappers

  /** Where a profile listens; a profile that never chose a device has none. */
  datatype Place = Place(host: Option<string>, device: Option<string>, channel: nat)

  datatype Profile<T> = Profile(id: string, enabled: bool, place: Place, settings: T)

  datatype Device = Device(host: string, id: string, channels: nat)

  function PlaceOn(device: Device, channel: nat): Place { Place(Some(device.host), Some(device.id), channel) }

  ghost predicate UsesId<T>(profiles: seq<Profile<T>>, id: string) { exists i | 0 <= i < |profiles| :: profiles[i].id == id }

  ghost predicate UsesPlace<T>(profiles: seq<Profile<T>>, place: Place) {
    exists i | 0 <= i < |profiles| :: profiles[i].place == place
  }

  /** Ids and places are unique, and something is left to run. */
  ghost predicate Valid<T>(profiles: seq<Profile<T>>) {
    && (forall i, j | 0 <= i < j < |profiles| :: profiles[i].id != profiles[j].id && profiles[i].place != profiles[j].place)
    && exists i | 0 <= i < |profiles| :: profiles[i].enabled
  }

  // ---------------------------------------------------------------- a fresh id

  const PREFIX := "stt-profile-"

  function IdOf(ordinal: nat): string { PREFIX + Decimal(ordinal) }

  lemma IdOfIsInjective(m: nat, n: nat)
    requires IdOf(m) == IdOf(n)
    ensures m == n
  {
    assert IdOf(m)[|PREFIX|..] == Decimal(m) && IdOf(n)[|PREFIX|..] == Decimal(n);
    DecimalInjective(m, n);
  }

  /** Finitely many profiles use finitely many ordinals: if `count` consecutive ones are taken, there are `count` profiles. */
  lemma {:induction false} Pigeonhole<T>(profiles: seq<Profile<T>>, first: nat, count: nat)
    requires forall k | first <= k < first + count :: UsesId(profiles, IdOf(k))
    ensures count <= |profiles|
    decreases |profiles|
  {
    if count > 0 {
      var last := first + count - 1;
      assert UsesId(profiles, IdOf(last));
      var i :| 0 <= i < |profiles| && profiles[i].id == IdOf(last);
      var rest := profiles[..i] + profiles[i + 1..];
      forall k | first <= k < last ensures UsesId(rest, IdOf(k)) {
        assert UsesId(profiles, IdOf(k));
        var j :| 0 <= j < |profiles| && profiles[j].id == IdOf(k);
        if IdOf(k) == IdOf(last) { IdOfIsInjective(k, last); }
        assert rest[if j < i then j else j - 1] == profiles[j];
      }
      Pigeonhole(rest, first, count - 1);
    }
  }

  method SomeId<T>(profiles: seq<Profile<T>>, id: string) returns (used: bool)
    ensures used == UsesId(profiles, id)
  {
    for i := 0 to |profiles|
      invariant forall k | 0 <= k < i :: profiles[k].id != id
    {
      if profiles[i].id == id { return true; }
    }
    return false;
  }

  /** The first unused id from the length of the list on; the search ends, after at most as many steps as there are profiles. */
  method NextProfileId<T>(profiles: seq<Profile<T>>) returns (id: string)
    ensures !UsesId(profiles, id)
    ensures exists n :: |profiles| < n <= 2 * |profiles| + 1 && id == IdOf(n) && forall k | |profiles| < k < n :: UsesId(profiles, IdOf(k))
  {
    var ordinal := |profiles| + 1;
    id := IdOf(ordinal);
    var used := SomeId(profiles, id);
    while used
      invariant |profiles| < ordinal <= 2 * |profiles| + 1 && id == IdOf(ordinal) && used == UsesId(profiles, id)
      invariant forall k | |profiles| < k < ordinal :: UsesId(profiles, IdOf(k))
      decreases 2 * |profiles| + 1 - ordinal
    {
      Pigeonhole(profiles, |profiles| + 1, ordinal - |profiles|);
      ordinal := ordinal + 1;
      id := IdOf(ordinal);
      used := SomeId(profiles, id);
    }
  }

  // ---------------------------------------------------------------- a free channel

  /** The devices that are searched: the preferred one alone when it is there, else every device. */
  ghost predicate Candidate(devices: seq<Device>, preferred: Place, d: nat) {
    && d < |devices|
    && if exists e | 0 <= e < |devices| :: Matches(devices[e], preferred)
       then Matches(devices[d], preferred) && forall e | 0 <= e < d :: !Matches(devices[e], preferred)
       else true
  }

  predicate Matches(device: Device, place: Place) { place.host == Some(device.host) && place.device == Some(device.id) }

  method SomePlace<T>(profiles: seq<Profile<T>>, place: Place) returns (used: bool)
    ensures used == UsesPlace(profiles, place)
  {
    for i := 0 to |profiles|
      invariant forall k | 0 <= k < i :: profiles[k].place != place
    {
      if profiles[i].place == place { return true; }
    }
    return false;
  }

  method FreeChannel<T>(profiles: seq<Profile<T>>, device: Device) returns (channel: Option<nat>)
    ensures channel.Some? ==> channel.value < device.channels && !UsesPlace(profiles, PlaceOn(device, channel.value))
    ensures channel.Some? ==> forall c | 0 <= c < channel.value :: UsesPlace(profiles, PlaceOn(device, c))
    ensures channel.None? ==> forall c | 0 <= c < device.channels :: UsesPlace(profiles, PlaceOn(device, c))
  {
    for c := 0 to device.channels
      invariant forall k | 0 <= k < c :: UsesPlace(profiles, PlaceOn(device, k))
    {
      var used := SomePlace(profiles, PlaceOn(device, c));
      if !used { return Some(c); }
    }
    return None;
  }

  method Preferred(devices: seq<Device>, preferred: Place) returns (found: Option<nat>)
    ensures found.Some? ==> found.value < |devices| && Candidate(devices, preferred, found.value) && Matches(devices[found.value], preferred)
    ensures found.None? ==> forall e | 0 <= e < |devices| :: !Matches(devices[e], preferred)
  {
    for d := 0 to |devices|
      invariant forall e | 0 <= e < d :: !Matches(devices[e], preferred)
    {
      if Matches(devices[d], preferred) { return Some(d); }
    }
    return None;
  }

  ghost predicate Full<T>(profiles: seq<Profile<T>>, device: Device) {
    forall c | 0 <= c < device.channels :: UsesPlace(profiles, PlaceOn(device, c))
  }

  /** Channel `c` is the first free one of device `d`, and no candidate before has a free one. */
  ghost predicate FirstFree<T>(profiles: seq<Profile<T>>, devices: seq<Device>, preferred: Place, d: nat, c: nat) {
    && Candidate(devices, preferred, d) && c < devices[d].channels && !UsesPlace(profiles, PlaceOn(devices[d], c))
    && (forall k | 0 <= k < c :: UsesPlace(profiles, PlaceOn(devices[d], k)))
    && forall e | 0 <= e < d && Candidate(devices, preferred, e) :: Full(profiles, devices[e])
  }

  /** The first free channel of the first candidate that has one; none exactly when every channel of every candidate is taken. */
  method NextAvailableInputChannel<T>(profiles: seq<Profile<T>>, devices: seq<Device>, preferred: Place) returns (place: Option<Place>)
    ensures place.None? <==> forall d: nat | Candidate(devices, preferred, d) :: Full(profiles, devices[d])
    ensures place.Some? ==> exists d: nat, c: nat :: FirstFree(profiles, devices, preferred, d, c) && place.value == PlaceOn(devices[d], c)
  {
    var found := Preferred(devices, preferred);
    if found.Some? {
      var channel := FreeChannel(profiles, devices[found.value]);
      return if channel.Some? then Some(PlaceOn(devices[found.value], channel.value)) else None;
    }
    for d := 0 to |devices|
      invariant forall e | 0 <= e < d :: Full(profiles, devices[e])
    {
      if devices[d].channels > 0 {
        var channel := FreeChannel(profiles, devices[d]);
        if channel.Some? {
          assert Candidate(devices, preferred, d);
          return Some(PlaceOn(devices[d], channel.value));
        }
      }
    }
    return None;
  }

  // ---------------------------------------------------------------- the operations

  /** The place of the first profile with an id, or the length. */
  function Find<T>(profiles: seq<Profile<T>>, id: string): (i: nat)
    ensures i <= |profiles| && (forall k | 0 <= k < i :: profiles[k].id != id) && (i < |profiles| ==> profiles[i].id == id)
  {
    if profiles == [] || profiles[0].id == id then 0 else 1 + Find(profiles[1..], id)
  }

  function Selected<T>(profiles: seq<Profile<T>>, id: string): Profile<T>
    requires profiles != []
  {
    var i := Find(profiles, id);
    profiles[if i < |profiles| then i else 0]
  }

  /** The model of a new profile is the first one with the selected id, or the first of all if there is none. */
  lemma SelectedIs<T>(profiles: seq<Profile<T>>, id: string, i: nat)
    requires i < |profiles| && (forall k | 0 <= k < i :: profiles[k].id != id)
    ensures profiles[i].id == id ==> Selected(profiles, id) == profiles[i]
    ensures !UsesId(profiles, id) ==> Selected(profiles, id) == profiles[0]
  {}

  /** What adding a profile leaves: the old ones, and an enabled copy of the selected one under a fresh id on a free channel. */
  ghost predicate Added<T>(before: seq<Profile<T>>, selected: string, devices: seq<Device>, after: seq<Profile<T>>) {
    && before != [] && |after| == |before| + 1 && before <= after
    && var new' := after[|before|];
    && !UsesId(before, new'.id) && !UsesPlace(before, new'.place)
    && new'.enabled && new'.settings == Selected(before, selected).settings
    && exists d: nat, c: nat :: FirstFree(before, devices, Selected(before, selected).place, d, c) && new'.place == PlaceOn(devices[d], c)
  }

  method Add<T>(profiles: seq<Profile<T>>, selected: string, devices: seq<Device>) returns (r: Option<seq<Profile<T>>>)
    requires profiles != []
    ensures r.None? <==> forall d: nat | Candidate(devices, Selected(profiles, selected).place, d) :: Full(profiles, devices[d])
    ensures r.Some? ==> Added(profiles, selected, devices, r.value)
  {
    var model := Selected(profiles, selected);
    var place := NextAvailableInputChannel(profiles, devices, model.place);
    if place.None? { return None; }
    var id := NextProfileId(profiles);
    return Some(profiles + [Profile(id, true, place.value, model.settings)]);
  }

  datatype Deletion<T> = Refused | Crashed | Deleted(profiles: seq<Profile<T>>, selected: string)

  function Without<T>(profiles: seq<Profile<T>>, id: string): seq<Profile<T>> {
    if profiles == [] then []
    else (if profiles[0].id == id then [] else [profiles[0]]) + Without(profiles[1..], id)
  }

  predicate AnyEnabled<T>(profiles: seq<Profile<T>>) { exists i | 0 <= i < |profiles| :: profiles[i].enabled }

  function Switched<T>(profiles: seq<Profile<T>>, id: string, enabled: bool): seq<Profile<T>> {
    seq(|profiles|, i requires 0 <= i < |profiles| =>
      if profiles[i].id == id then profiles[i].(enabled := enabled) else profiles[i])
  }

  /** The last profile stays; reading the id of a neighbour fails if none is left. */
  function Delete<T>(profiles: seq<Profile<T>>, id: string): Deletion<T> {
    if |profiles| <= 1 then Refused else
    var index := Find(profiles, id);
    if index == |profiles| then Refused else
    var remaining := Without(profiles, id);
    if remaining == [] then Crashed else
    var selected := remaining[if index < |remaining| then index else |remaining| - 1].id;
    Deleted(if AnyEnabled(remaining) then remaining else Switched(remaining, selected, true), selected)
  }

  function EnabledCount<T>(profiles: seq<Profile<T>>): nat {
    if profiles == [] then 0 else (if profiles[0].enabled then 1 else 0) + EnabledCount(profiles[1..])
  }

  function SetEnabled<T>(profiles: seq<Profile<T>>, id: string, enabled: bool): seq<Profile<T>> {
    var index := Find(profiles, id);
    if index == |profiles| || profiles[index].enabled == enabled then profiles
    else if !enabled && EnabledCount(profiles) == 1 then profiles
    else Switched(profiles, id, enabled)
  }

  // ---------------------------------------------------------------- what the operations keep

  lemma AddKeepsValid<T>(before: seq<Profile<T>>, selected: string, devices: seq<Device>, after: seq<Profile<T>>)
    requires Valid(before) && Added(before, selected, devices, after)
    ensures Valid(after)
  {
    forall i, j | 0 <= i < j < |after| ensures after[i].id != after[j].id && after[i].place != after[j].place {
      assert after[i] == before[i];
      if j < |before| { assert after[j] == before[j]; }
    }
    assert after[|before|].enabled;
  }

  lemma {:induction false} WithoutNone<T>(profiles: seq<Profile<T>>, id: string)
    requires forall k | 0 <= k < |profiles| :: profiles[k].id != id
    ensures Without(profiles, id) == profiles
  {
    if profiles != [] {
      WithoutNone(profiles[1..], id);
      assert [profiles[0]] + profiles[1..] == profiles;
    }
  }

  /** With unique ids, deleting takes out one place of the list and nothing else. */
  lemma {:induction false} WithoutOne<T>(profiles: seq<Profile<T>>, id: string, i: nat)
    requires i < |profiles| && profiles[i].id == id && forall k | 0 <= k < |profiles| && k != i :: profiles[k].id != id
    ensures Without(profiles, id) == profiles[..i] + profiles[i + 1..]
  {
    if i == 0 {
      WithoutNone(profiles[1..], id);
      assert profiles[..0] + profiles[1..] == profiles[1..];
    } else {
      WithoutOne(profiles[1..], id, i - 1);
      assert [profiles[0]] + (profiles[1..][..i - 1] + profiles[1..][i..]) == profiles[..i] + profiles[i + 1..];
    }
  }

  /** The profile that stands at place `k` once place `i` is taken out. */
  function Beside<T>(profiles: seq<Profile<T>>, i: nat, k: nat): Profile<T>
    requires i < |profiles| && k + 1 < |profiles|
  {
    profiles[if k < i then k else k + 1]
  }

  lemma OthersEnabled<T>(profiles: seq<Profile<T>>, i: nat, remaining: seq<Profile<T>>)
    requires i < |profiles| && |remaining| == |profiles| - 1 && forall k | 0 <= k < |remaining| :: remaining[k] == Beside(profiles, i, k)
    ensures AnyEnabled(remaining) <==> exists j | 0 <= j < |profiles| :: j != i && profiles[j].enabled
  {
    forall j | 0 <= j < |profiles| && j != i ensures profiles[j] in remaining {
      assert remaining[if j < i then j else j - 1] == profiles[j];
    }
    forall k | 0 <= k < |remaining| && remaining[k].enabled ensures exists j | 0 <= j < |profiles| :: j != i && profiles[j].enabled {
      var j := if k < i then k else k + 1;
      assert profiles[j] == remaining[k];
    }
  }

  /** What becomes of that profile: it is switched on if it is the newly selected one and nothing else runs. */
  ghost function Survivor<T>(profiles: seq<Profile<T>>, i: nat, selected: string, k: nat): Profile<T>
    requires i < |profiles| && k + 1 < |profiles|
  {
    var p := Beside(profiles, i, k);
    if p.id == selected && forall j | 0 <= j < |profiles| && j != i :: !profiles[j].enabled then p.(enabled := true) else p
  }

  lemma RemainingIs<T>(profiles: seq<Profile<T>>, id: string)
    requires Valid(profiles) && UsesId(profiles, id)
    ensures Find(profiles, id) < |profiles| && |Without(profiles, id)| == |profiles| - 1
    ensures forall k | 0 <= k < |profiles| - 1 :: Without(profiles, id)[k] == Beside(profiles, Find(profiles, id), k)
  {
    WithoutOne(profiles, id, Find(profiles, id));
  }

  /** What deleting a known id does, place by place. */
  lemma DeleteIs<T>(profiles: seq<Profile<T>>, id: string)
    requires Valid(profiles) && |profiles| > 1 && UsesId(profiles, id)
    ensures var i, d := Find(profiles, id), Delete(profiles, id);
      && i < |profiles| && d.Deleted? && |d.profiles| == |profiles| - 1
      && d.selected == Beside(profiles, i, if i < |d.profiles| then i else i - 1).id
      && (forall k | 0 <= k < |d.profiles| :: d.profiles[k] == Survivor(profiles, i, d.selected, k))
  {
    hide Find, Without, AnyEnabled, Valid, UsesId;
    RemainingIs(profiles, id);
    OthersEnabled(profiles, Find(profiles, id), Without(profiles, id));
  }

  /**
   * Deleting from a valid list: it is refused exactly for the last profile or an unknown id and it never fails; what stays
   * is valid and in order, and unchanged except that the newly selected profile (the one that moves into the gap, or the
   * new last one) is switched on if nothing else is.
   */
  lemma DeleteKeepsValid<T>(profiles: seq<Profile<T>>, id: string)
    requires Valid(profiles)
    ensures Delete(profiles, id).Refused? <==> |profiles| == 1 || !UsesId(profiles, id)
    ensures !Delete(profiles, id).Crashed?
    ensures Delete(profiles, id).Deleted? ==> Valid(Delete(profiles, id).profiles) && !UsesId(Delete(profiles, id).profiles, id)
  {
    if |profiles| > 1 && UsesId(profiles, id) {
      DeleteIs(profiles, id);
      StaysValid(profiles, Find(profiles, id), Delete(profiles, id));
    }
  }

  /** A list with duplicate ids is the only one deletion fails on: one of several profiles that all have the deleted id. */
  lemma {:induction false} CrashesExactly<T>(profiles: seq<Profile<T>>, id: string)
    ensures Without(profiles, id) == [] <==> forall k | 0 <= k < |profiles| :: profiles[k].id == id
    ensures Delete(profiles, id).Crashed? <==> |profiles| > 1 && forall k | 0 <= k < |profiles| :: profiles[k].id == id
  {
    if profiles != [] {
      var rest := profiles[1..];
      CrashesExactly(rest, id);
      assert forall k | 0 <= k < |rest| :: rest[k] == profiles[k + 1];
    }
  }

  lemma StaysValid<T>(profiles: seq<Profile<T>>, i: nat, d: Deletion<T>)
    requires Valid(profiles) && |profiles| > 1 && i < |profiles| && d.Deleted? && |d.profiles| == |profiles| - 1
    requires d.selected == Beside(profiles, i, if i < |d.profiles| then i else i - 1).id
    requires forall k | 0 <= k < |d.profiles| :: d.profiles[k] == Survivor(profiles, i, d.selected, k)
    ensures Valid(d.profiles) && !UsesId(d.profiles, profiles[i].id)
  {
    assert forall k | 0 <= k < |d.profiles| :: d.profiles[k].id == Beside(profiles, i, k).id && d.profiles[k].place == Beside(profiles, i, k).place;
    if j :| 0 <= j < |profiles| && j != i && profiles[j].enabled {
      assert d.profiles[if j < i then j else j - 1].enabled;
    } else {
      assert d.profiles[if i < |d.profiles| then i else i - 1].enabled;
    }
  }

  lemma {:induction false} CountAt<T>(profiles: seq<Profile<T>>, i: nat, j: nat)
    requires i < |profiles| && profiles[i].enabled
    ensures EnabledCount(profiles) >= 1
    ensures EnabledCount(profiles) == 1 && j < |profiles| && profiles[j].enabled ==> i == j
    ensures EnabledCount(profiles) > 1 ==> exists k | 0 <= k < |profiles| :: k != i && profiles[k].enabled
  {
    var rest := profiles[1..];
    assert forall k | 0 <= k < |rest| :: rest[k] == profiles[k + 1];
    if i > 0 { CountAt(rest, i - 1, if j > 0 then j - 1 else i - 1); }
    CountPositive(rest);
    if 0 < j < |profiles| && profiles[j].enabled && i == 0 { CountAt(rest, j - 1, j - 1); }
  }

  lemma {:induction false} CountPositive<T>(profiles: seq<Profile<T>>)
    ensures EnabledCount(profiles) > 0 ==> exists k | 0 <= k < |profiles| :: profiles[k].enabled
  {
    if profiles != [] {
      CountPositive(profiles[1..]);
      assert forall k | 0 <= k < |profiles[1..]| :: profiles[1..][k] == profiles[k + 1];
    }
  }

  /** Switching changes the one flag, unless that would leave nothing to run; then it changes nothing. */
  lemma SetEnabledKeepsValid<T>(profiles: seq<Profile<T>>, id: string, enabled: bool)
    requires Valid(profiles)
    ensures var after := SetEnabled(profiles, id, enabled);
      && Valid(after) && |after| == |profiles|
      && forall i | 0 <= i < |profiles| ::
        after[i] == if profiles[i].id == id && (enabled || exists j | 0 <= j < |profiles| :: j != i && profiles[j].enabled)
                    then profiles[i].(enabled := enabled) else profiles[i]
  {
    var after := SetEnabled(profiles, id, enabled);
    var i := Find(profiles, id);
    hide Find, EnabledCount;
    assert forall k | 0 <= k < |profiles| :: profiles[k].id == id <==> k == i;
    if i < |profiles| && profiles[i].enabled != enabled {
      if enabled {
        assert after[i].enabled;
      } else {
        CountAt(profiles, i, i);
        if EnabledCount(profiles) == 1 {
          forall j | 0 <= j < |profiles| && profiles[j].enabled ensures j == i { CountAt(profiles, i, j); }
        } else {
          var k :| 0 <= k < |profiles| && k != i && profiles[k].enabled;
          assert after[k].enabled;
        }
      }
    }
  }

  // ---------------------------------------------------------------- every run

  ghost predicate Step<T>(before: seq<Profile<T>>, after: seq<Profile<T>>) {
    || (exists selected, devices :: Added(before, selected, devices, after))
    || (exists id :: Delete(before, id).Deleted? && after == Delete(before, id).profiles)
    || (exists id, enabled :: after == SetEnabled(before, id, enabled))
  }

  /** Every list of every run that starts from a valid list is valid. */
  lemma {:induction false} RunsStayValid<T>(run: seq<seq<Profile<T>>>, n: nat)
    requires n < |run| && Valid(run[0]) && forall i | 0 <= i < |run| - 1 :: Step(run[i], run[i + 1])
    ensures Valid(run[n])
  {
    if n > 0 {
      RunsStayValid(run, n - 1);
      var before, after := run[n - 1], run[n];
      assert Step(before, after);
      if selected, devices :| Added(before, selected, devices, after) {
        AddKeepsValid(before, selected, devices, after);
      } else if id :| Delete(before, id).Deleted? && after == Delete(before, id).profiles {
        DeleteKeepsValid(before, id);
      } else {
        var id, enabled :| after == SetEnabled(before, id, enabled);
        SetEnabledKeepsValid(before, id, enabled);
      }
    }
  }
}
