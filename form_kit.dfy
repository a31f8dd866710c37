/** What the seven booking forms share: the random ID format and its
    generator, the tab wizard with its `canProceedToTab` / `handleNext` /
    `handlePrevious` rules and the ID effect on reaching the second tab,
    the truthy-field checks, the required-field report, and the editing of
    a list of entries that never empties it. */
module FormKit {
  import opened Wrappers
  import opened Text
  import opened Records

  const Letters := "ABCDEFGHIJKLMNOPQRSTUVWXYZ"
  const Digits := "0123456789"
  const Characters := Letters + Digits

  /** The `Math.floor(Math.random() * n)` results an ID generator draws: one
      letter index, one digit index and one index per trailing character. */
  datatype IdPicks = IdPicks(letter: nat, digit: nat, rest: seq<nat>)

  /** The draws are in range and there are `n` trailing ones. */
  predicate PicksFit(p: IdPicks, n: nat) {
    p.letter < 26 && p.digit < 10 && |p.rest| == n && forall i :: 0 <= i < n ==> p.rest[i] < 36
  }

  /** The first `k` trailing characters the draws pick. */
  function Tail(p: IdPicks, k: nat): string
    requires k <= |p.rest| && forall i :: 0 <= i < |p.rest| ==> p.rest[i] < 36
  {
    seq(k, i requires 0 <= i < k => Characters[p.rest[i]])
  }

  /** The ID the draws produce after the prefix. */
  function IdOf(prefix: string, p: IdPicks): string
    requires PicksFit(p, |p.rest|)
  {
    prefix + [Letters[p.letter], Digits[p.digit]] + Tail(p, |p.rest|)
  }

  /** The ID format: the prefix, one of A-Z, one of 0-9, then `n` of A-Z0-9. */
  predicate WellFormedId(id: string, prefix: string, n: nat) {
    |id| == |prefix| + 2 + n && id[..|prefix|] == prefix
    && id[|prefix|] in Letters && id[|prefix| + 1] in Digits
    && forall k :: |prefix| + 2 <= k < |id| ==> id[k] in Characters
  }

  lemma IdOfWellFormed(prefix: string, p: IdPicks)
    requires PicksFit(p, |p.rest|)
    ensures WellFormedId(IdOf(prefix, p), prefix, |p.rest|)
  {
    var id := IdOf(prefix, p);
    forall k | |prefix| + 2 <= k < |id| ensures id[k] in Characters {
      assert id[k] == Characters[p.rest[k - |prefix| - 2]];
    }
  }

  /** The position of a character in a string that holds it. */
  function IndexIn(s: string, c: char): (i: nat)
    requires c in s
    ensures i < |s| && s[i] == c
  {
    if s[0] == c then 0 else 1 + IndexIn(s[1..], c)
  }

  /** Every ID of the format is produced by some draws, so the format is
      exactly the set of IDs the generator can return. */
  lemma WellFormedIdGenerated(id: string, prefix: string, n: nat)
    requires WellFormedId(id, prefix, n)
    ensures exists p :: PicksFit(p, n) && IdOf(prefix, p) == id
  {
    var base := |prefix| + 2;
    var tail := id[base..];
    var rest := TailPicks(tail);
    var letter := IndexIn(Letters, id[|prefix|]);
    var digit := IndexIn(Digits, id[|prefix| + 1]);
    assert |Letters| == 26 && |Digits| == 10;
    var p := IdPicks(letter, digit, rest);
    assert PicksFit(p, n);
    assert Tail(p, n) == tail by {
      forall i | 0 <= i < n ensures Tail(p, n)[i] == tail[i] {
        assert Characters[rest[i]] == tail[i];
      }
    }
    assert IdOf(prefix, p) == prefix + [id[|prefix|], id[|prefix| + 1]] + tail;
    SplitAfter(id, |prefix|);
  }

  lemma SplitAfter(s: string, k: nat)
    requires k + 2 <= |s|
    ensures s == s[..k] + [s[k], s[k + 1]] + s[k + 2..]
  {
    assert s[..k] + [s[k], s[k + 1]] == s[..k + 2];
  }

  /** The draws that pick the given alphanumerics. */
  function TailPicks(s: string): (r: seq<nat>)
    requires forall k :: 0 <= k < |s| ==> s[k] in Characters
    ensures |r| == |s| && forall k :: 0 <= k < |s| ==> r[k] < 36 && Characters[r[k]] == s[k]
  {
    seq(|s|, k requires 0 <= k < |s| => IndexIn(Characters, s[k]))
  }

  /** `generateTicketId` / `generateBookingId`: the prefix, then the drawn
      letter, digit and `n` alphanumerics, appended one at a time. */
  method GenerateId(prefix: string, picks: IdPicks, n: nat) returns (id: string)
    requires PicksFit(picks, n)
    ensures id == IdOf(prefix, picks)
    ensures WellFormedId(id, prefix, n)
  {
    id := prefix;
    id := id + [Letters[picks.letter]];
    id := id + [Digits[picks.digit]];
    for i := 0 to n
      invariant id == prefix + [Letters[picks.letter], Digits[picks.digit]] + Tail(picks, i)
    {
      assert Tail(picks, i + 1) == Tail(picks, i) + [Characters[picks.rest[i]]];
      id := id + [Characters[picks.rest[i]]];
    }
    IdOfWellFormed(prefix, picks);
  }

  /** The two forms of `canProceedToTab`: the three-tab forms refuse every
      tab past the third; the forex form lets every tab from the second on
      through once basic info is filled. */
  datatype TabRule = FirstThree | AnyAfterFirst

  function CanProceedToTab(rule: TabRule, tab: int, filled: bool): (r: bool)
    ensures tab == 0 ==> r
    ensures tab != 0 && r ==> filled && tab >= 1
    ensures rule.FirstThree? && tab > 2 ==> !r
  {
    if tab == 0 then true
    else match rule
      case FirstThree => (tab == 1 || tab == 2) && filled
      case AnyAfterFirst => tab >= 1 && filled
  }

  /** On the three tabs both rules agree. */
  lemma RulesAgreeOnThreeTabs(tab: int, filled: bool)
    requires 0 <= tab < 3
    ensures CanProceedToTab(FirstThree, tab, filled) == CanProceedToTab(AnyAfterFirst, tab, filled)
  {
  }

  /** `handleNext`: one tab on when there is a next tab and it may be entered. */
  function NextTab(active: int, count: int, canNext: bool): (r: int)
    ensures r == active || (r == active + 1 && r < count && canNext)
  {
    if active < count - 1 && canNext then active + 1 else active
  }

  /** `handlePrevious`: one tab back unless on the first. */
  function PrevTab(active: int): (r: int)
    ensures active > 0 ==> r == active - 1
    ensures active <= 0 ==> r == active
  {
    if active > 0 then active - 1 else active
  }

  /** The ID after the effect that runs when the tab changes: reaching the
      second tab with no ID on a new booking generates one. */
  function IdAfterArrival(from: int, to: int, id: string, editing: bool, prefix: string, picks: IdPicks): (r: string)
    requires PicksFit(picks, |picks.rest|)
    ensures r != id ==> to == 1 && from != 1 && id == "" && !editing && r == IdOf(prefix, picks)
  {
    if to != from && to == 1 && id == "" && !editing then IdOf(prefix, picks) else id
  }

  /** An ID set before, or any ID while editing, is never replaced; a
      generated one has the format. */
  lemma IdAfterArrivalKeeps(from: int, to: int, id: string, editing: bool, prefix: string, picks: IdPicks)
    requires PicksFit(picks, |picks.rest|)
    ensures id != "" || editing ==> IdAfterArrival(from, to, id, editing, prefix, picks) == id
    ensures IdAfterArrival(from, to, id, editing, prefix, picks) != id ==>
      WellFormedId(IdAfterArrival(from, to, id, editing, prefix, picks), prefix, |picks.rest|)
  {
    IdOfWellFormed(prefix, picks);
  }

  /** The tab position and the ID of one form, with the form's fixed tab
      count, navigation rule, ID prefix, number of trailing ID characters
      and editing mode. */
  class Wizard {
    var activeTab: int
    var id: string
    const tabCount: int
    const rule: TabRule
    const prefix: string
    const extra: nat
    const editing: bool

    ghost predicate Valid()
      reads this
    {
      1 <= tabCount && 0 <= activeTab < tabCount
    }

    constructor (tabCount: int, rule: TabRule, prefix: string, extra: nat, editing: bool)
      requires tabCount >= 1
      ensures Valid() && activeTab == 0 && id == ""
      ensures this.tabCount == tabCount && this.rule == rule && this.prefix == prefix
      ensures this.extra == extra && this.editing == editing
    {
      this.tabCount := tabCount;
      this.rule := rule;
      this.prefix := prefix;
      this.extra := extra;
      this.editing := editing;
      activeTab := 0;
      id := "";
    }

    /** `setActiveTab(to)` followed by the ID effect. */
    method Arrive(to: int, picks: IdPicks)
      requires PicksFit(picks, extra)
      modifies this`activeTab, this`id
      ensures activeTab == to
      ensures id == IdAfterArrival(old(activeTab), to, old(id), editing, prefix, picks)
    {
      var from := activeTab;
      activeTab := to;
      if to != from && to == 1 && id == "" && !editing {
        id := GenerateId(prefix, picks, extra);
      }
    }

    method HandleNext(filled: bool, picks: IdPicks)
      requires Valid() && PicksFit(picks, extra)
      modifies this`activeTab, this`id
      ensures Valid()
      ensures activeTab == NextTab(old(activeTab), tabCount, CanProceedToTab(rule, old(activeTab) + 1, filled))
      ensures id == IdAfterArrival(old(activeTab), activeTab, old(id), editing, prefix, picks)
    {
      var next := NextTab(activeTab, tabCount, CanProceedToTab(rule, activeTab + 1, filled));
      Arrive(next, picks);
    }

    method HandlePrevious(picks: IdPicks)
      requires Valid() && PicksFit(picks, extra)
      modifies this`activeTab, this`id
      ensures Valid()
      ensures activeTab == PrevTab(old(activeTab))
      ensures id == IdAfterArrival(old(activeTab), activeTab, old(id), editing, prefix, picks)
    {
      Arrive(PrevTab(activeTab), picks);
    }

    /** A tab button: `canProceed(index) && setActiveTab(index)`. */
    method SelectTab(index: int, filled: bool, picks: IdPicks)
      requires Valid() && PicksFit(picks, extra) && 0 <= index < tabCount
      modifies this`activeTab, this`id
      ensures Valid()
      ensures activeTab == if CanProceedToTab(rule, index, filled) then index else old(activeTab)
      ensures id == IdAfterArrival(old(activeTab), activeTab, old(id), editing, prefix, picks)
    {
      if CanProceedToTab(rule, index, filled) {
        Arrive(index, picks);
      } else {
        Arrive(activeTab, picks);
      }
    }

    /** The edit-mode initialisation of the ID. */
    method SetId(newId: string)
      modifies this`id
      ensures id == newId
    {
      id := newId;
    }

    /** The reset after a new booking is stored: back to the first tab with
      no ID. Reaching tab 0 generates nothing. */
    method Reset()
      requires Valid()
      modifies this`activeTab, this`id
      ensures Valid() && activeTab == 0 && id == ""
    {
      activeTab := 0;
      id := "";
    }
  }

  /** Without basic info the wizard never leaves the first tab: every step
      from tab 0 stays there. */
  lemma StuckWithoutBasicInfo(rule: TabRule, count: int, index: int)
    ensures NextTab(0, count, CanProceedToTab(rule, 1, false)) == 0
    ensures index != 0 ==> !CanProceedToTab(rule, index, false)
  {
  }

  /** `formData.key` is truthy. */
  predicate Filled(form: Fields, key: string) {
    Truthy(Lookup(form, key))
  }

  /** `formData.k1 && formData.k2 && ...` */
  predicate AllFilled(form: Fields, keys: seq<string>) {
    forall i :: 0 <= i < |keys| ==> Filled(form, keys[i])
  }

  /** `!formData[field] || formData[field].trim() === ''` */
  predicate Blank(form: Fields, key: string) {
    !Filled(form, key) || IsBlank(form[key])
  }

  /** A required field: its key and its label. */
  datatype Required = Required(key: string, title: string)

  /** The labels of the blank required fields, in declaration order. */
  function MissingLabels(form: Fields, required: seq<Required>): seq<string>
    decreases |required|
  {
    if required == [] then []
    else (if Blank(form, required[0].key) then [required[0].title] else []) + MissingLabels(form, required[1..])
  }

  /** Nothing is reported exactly when no required field is blank. */
  lemma {:induction false} MissingLabelsEmpty(form: Fields, required: seq<Required>)
    ensures MissingLabels(form, required) == [] <==> forall i :: 0 <= i < |required| ==> !Blank(form, required[i].key)
    decreases |required|
  {
    if required != [] {
      var rest := required[1..];
      var head := if Blank(form, required[0].key) then [required[0].title] else [];
      MissingLabelsEmpty(form, rest);
      assert MissingLabels(form, required) == head + MissingLabels(form, rest);
      if forall i :: 0 <= i < |required| ==> !Blank(form, required[i].key) {
        assert head == [];
        forall i | 0 <= i < |rest| ensures !Blank(form, rest[i].key) {
          assert rest[i] == required[i + 1];
        }
      }
      if MissingLabels(form, required) == [] {
        assert head == [] && MissingLabels(form, rest) == [];
        forall i | 0 <= i < |required| ensures !Blank(form, required[i].key) {
          if i > 0 {
            assert required[i] == rest[i - 1];
          }
        }
      }
    }
  }

  /** Every reported label belongs to a blank required field, and the label
      of every blank required field is reported. */
  lemma {:induction false} MissingLabelsMembers(form: Fields, required: seq<Required>, t: string)
    ensures t in MissingLabels(form, required) <==> exists i :: 0 <= i < |required| && required[i].title == t && Blank(form, required[i].key)
    decreases |required|
  {
    if required != [] {
      MissingLabelsMembers(form, required[1..], t);
      if t in MissingLabels(form, required[1..]) {
        var i :| 0 <= i < |required[1..]| && required[1..][i].title == t && Blank(form, required[1..][i].key);
        assert required[i + 1] == required[1..][i];
      }
      if exists i :: 0 <= i < |required| && required[i].title == t && Blank(form, required[i].key) {
        var i :| 0 <= i < |required| && required[i].title == t && Blank(form, required[i].key);
        if i > 0 {
          assert required[1..][i - 1] == required[i];
        }
      }
    }
  }

  /** A form that passes the required-field check has every required field filled. */
  lemma NothingMissingMeansFilled(form: Fields, required: seq<Required>)
    requires MissingLabels(form, required) == []
    ensures forall i :: 0 <= i < |required| ==> Filled(form, required[i].key)
  {
    MissingLabelsEmpty(form, required);
  }

  /** `list.filter((_, i) => i !== index)` */
  function Without<T>(list: seq<T>, index: int): seq<T>
    decreases |list|
  {
    if list == [] then []
    else Without(list[..|list| - 1], index) + (if |list| - 1 != index then [list[|list| - 1]] else [])
  }

  /** The filter drops exactly the entry at the index, if there is one. */
  lemma {:induction false} WithoutIsSlice<T>(list: seq<T>, index: int)
    ensures 0 <= index < |list| ==> Without(list, index) == list[..index] + list[index + 1..]
    ensures !(0 <= index < |list|) ==> Without(list, index) == list
    decreases |list|
  {
    if list != [] {
      var init := list[..|list| - 1];
      WithoutIsSlice(init, index);
      if index == |list| - 1 {
        assert list[..index] == init;
      } else if 0 <= index < |list| - 1 {
        assert init[..index] == list[..index];
        assert init[index + 1..] + [list[|list| - 1]] == list[index + 1..];
      } else {
        assert init + [list[|list| - 1]] == list;
      }
    }
  }

  /** The remove handlers: nothing happens at length one; otherwise the entry
      at the index is filtered out. */
  function RemoveEntry<T>(list: seq<T>, index: int): (r: seq<T>)
    ensures |list| >= 1 ==> |r| >= 1
  {
    WithoutIsSlice(list, index);
    if |list| > 1 then Without(list, index) else list
  }

  /** Removal deletes exactly index `index` and keeps the others in order,
      unless the list has one entry. */
  lemma RemoveEntryIsSlice<T>(list: seq<T>, index: int)
    ensures |list| <= 1 ==> RemoveEntry(list, index) == list
    ensures |list| > 1 && 0 <= index < |list| ==> RemoveEntry(list, index) == list[..index] + list[index + 1..]
    ensures |list| > 1 && !(0 <= index < |list|) ==> RemoveEntry(list, index) == list
  {
    WithoutIsSlice(list, index);
  }

  /** `newEntries[index][field] = value` on a copy of the list. An index
      without an entry throws before the state is set, so nothing changes. */
  function ChangeEntry(list: seq<Fields>, index: int, field: string, value: string): (r: seq<Fields>)
    ensures |r| == |list|
    ensures forall i :: 0 <= i < |list| && i != index ==> r[i] == list[i]
    ensures 0 <= index < |list| ==> r[index].Keys == list[index].Keys + {field} && r[index][field] == value
    ensures 0 <= index < |list| ==> forall k :: k in list[index] && k != field ==> r[index][k] == list[index][k]
  {
    if 0 <= index < |list| then list[index := list[index][field := value]] else list
  }

  /** The HTTP verb of a submission. */
  datatype Verb = Post | Put

  /** A submission: verb, URL and JSON body. */
  datatype Request<B> = Request(verb: Verb, url: string, body: B)

  /** The fields of `form` among `keys`: `{ k1: formData.k1, ... }`, where a
      missing field stays missing. */
  function Pick(form: Fields, keys: set<string>): (r: Fields)
    ensures r.Keys == form.Keys * keys
    ensures forall k :: k in r ==> r[k] == form[k]
  {
    map k | k in form && k in keys :: form[k]
  }

  /** `{ ...formData, [name]: value }` */
  function SetField(form: Fields, name: string, value: string): (r: Fields)
    ensures r.Keys == form.Keys + {name} && r[name] == value
    ensures forall k :: k in form && k != name ==> r[k] == form[k]
  {
    form[name := value]
  }

  /** `handleLocationEdit`: a cancelled prompt (`None`) changes nothing;
      otherwise only that field takes the entered text. */
  function LocationEdit(form: Fields, field: string, entered: Option<string>): (r: Fields)
    ensures entered.None? ==> r == form
    ensures entered.Some? ==> r == SetField(form, field, entered.value)
  {
    if entered.Some? then SetField(form, field, entered.value) else form
  }

  /** A template literal's rendering of a possibly missing value. */
  function Interpolate(v: Option<string>): string {
    match v
    case Some(s) => s
    case None => "undefined"
  }

  /** The edit-mode prefill `{ key: initialData.key || default, ... }` over
      the keys of the blank form. */
  function Prefilled(initial: Booking, blank: Fields): (r: Fields)
    ensures r.Keys == blank.Keys
    ensures forall k :: k in blank ==> r[k] == OrElse(Get(initial, k), blank[k])
  {
    map k | k in blank :: OrElse(Get(initial, k), blank[k])
  }

  /** The timestamps of the transfer, car rental and forex payloads: when
      editing, `submittedAt` is kept (`kept`, the initial record's) or else
      `now`, and `lastModified` is `now`; a new booking gets only a fresh
      `submittedAt`. */
  function Stamps(editing: bool, kept: Option<string>, now: string): (r: Fields)
    ensures r.Keys == if editing then {"submittedAt", "lastModified"} else {"submittedAt"}
    ensures r["submittedAt"] == if editing then OrElse(kept, now) else now
    ensures editing ==> r["lastModified"] == now
  {
    if editing then map["submittedAt" := OrElse(kept, now), "lastModified" := now]
    else map["submittedAt" := now]
  }

  /** Adding the timestamps to a set of fields overrides only the two
      timestamps. */
  lemma StampedLookup(fields: Fields, editing: bool, kept: Option<string>, now: string)
    ensures forall k :: k != "submittedAt" && k != "lastModified" ==> Lookup(fields + Stamps(editing, kept, now), k) == Lookup(fields, k)
    ensures Lookup(fields + Stamps(editing, kept, now), "submittedAt") == Some(if editing then OrElse(kept, now) else now)
    ensures Lookup(fields + Stamps(editing, kept, now), "lastModified") == if editing then Some(now) else Lookup(fields, "lastModified")
  {
  }

  /** The record the transfer and car rental forms pass to `onSubmit`:
      `{ ...result, _id: result._id || initialId, [idKey]: id, ...formData,
      submittedAt, lastModified }`, where an undefined `_id` or
      `lastModified` is no field at all. */
  function Delivered(result: Booking, initialId: Option<string>, idKey: string, id: string, form: Fields,
                     editing: bool, kept: Option<string>, now: string): (r: Booking)
    ensures r.journeyDetails == result.journeyDetails
    ensures Get(r, "submittedAt") == Some(if editing then OrElse(kept, now) else now)
    ensures Get(r, "lastModified") == if editing then Some(now) else None
    ensures forall k :: k in form && k != "submittedAt" && k != "lastModified" ==> Get(r, k) == Some(form[k])
    ensures idKey !in form && idKey != "submittedAt" && idKey != "lastModified" ==> Get(r, idKey) == Some(id)
    ensures "_id" !in form && idKey != "_id" ==> Get(r, "_id") == Or(Get(result, "_id"), initialId)
    ensures forall k :: k !in form && k != idKey && k != "_id" && k != "submittedAt" && k != "lastModified" ==> Get(r, k) == Get(result, k)
  {
    var withIds := WithIds(result.fields, Or(Get(result, "_id"), initialId), idKey, id);
    Booking(Restamped(withIds + form, editing, kept, now), result.journeyDetails)
  }

  /** `{ ...fields, _id: theId, [idKey]: id }`, an undefined `_id` being no field. */
  function WithIds(fields: Fields, theId: Option<string>, idKey: string, id: string): (r: Fields)
    ensures Lookup(r, idKey) == Some(id)
    ensures idKey != "_id" ==> Lookup(r, "_id") == theId
    ensures forall k :: k != idKey && k != "_id" ==> Lookup(r, k) == Lookup(fields, k)
  {
    (if theId.Some? then fields["_id" := theId.value] else fields - {"_id"})[idKey := id]
  }

  /** `{ ...fields, submittedAt, lastModified }` as `onSubmit` receives it:
      `lastModified` is no field at all outside editing. */
  function Restamped(fields: Fields, editing: bool, kept: Option<string>, now: string): (r: Fields)
    ensures Lookup(r, "submittedAt") == Some(if editing then OrElse(kept, now) else now)
    ensures Lookup(r, "lastModified") == if editing then Some(now) else None
    ensures forall k :: k != "submittedAt" && k != "lastModified" ==> Lookup(r, k) == Lookup(fields, k)
  {
    var m := fields["submittedAt" := if editing then OrElse(kept, now) else now];
    if editing then m["lastModified" := now] else m - {"lastModified"}
  }

  /** What a submission's round trip gave back: no answer or an error
      status (`Failed`), or the parsed body of a successful one. */
  datatype Outcome<R> = Failed | Succeeded(result: R)
}
