/**
 * The profile page: a draft profile edited field by field (contact details, a list of
 * services with prices, a weekly grid of open slots, uploaded pictures) and a live preview.
 *
 * Each handler hands the next profile to the page's single state cell; the functions below
 * compute that next profile and the class holds the cell.
 */
module ProfileEditor {

  datatype Service = Service(name: string, price: string)

  const EmptyService := Service("", "")

  /**
   * `schedule` maps a key "{day}_{slot}" to whether that slot is ticked; a missing key is an
   * unticked slot. `pictures` are references to the uploaded files.
   */
  datatype Profile = Profile(
    name: string,
    email: string,
    phone: string,
    bio: string,
    location: string,
    services: seq<Service>,
    schedule: map<string, bool>,
    pictures: seq<string>)

  /** The draft the page starts with: empty fields and a single empty service row. */
  const InitialProfile := Profile("", "", "", "", "", [EmptyService], map[], [])

  const Days: seq<string> := ["Mon", "Tue", "Wed", "Thu", "Fri", "Sat", "Sun"]

  const TimeSlots: seq<string> := [
    "08:00 - 10:00",
    "10:00 - 12:00",
    "12:00 - 14:00",
    "14:00 - 16:00",
    "16:00 - 18:00",
    "18:00 - 20:00"
  ]

  // ---------------------------------------------------------------- text fields

  /** The inputs wired to handleChange, by their `name` attribute. */
  datatype TextField = NameField | EmailField | PhoneField | BioField | LocationField

  function Field(p: Profile, f: TextField): string {
    match f
    case NameField => p.name
    case EmailField => p.email
    case PhoneField => p.phone
    case BioField => p.bio
    case LocationField => p.location
  }

  /** handleChange: `{ ...prev, [name]: value }`. */
  function WithField(p: Profile, f: TextField, value: string): (r: Profile)
    ensures Field(r, f) == value
    ensures forall g :: g != f ==> Field(r, g) == Field(p, g)
    ensures r.services == p.services && r.schedule == p.schedule && r.pictures == p.pictures
  {
    match f
    case NameField => p.(name := value)
    case EmailField => p.(email := value)
    case PhoneField => p.(phone := value)
    case BioField => p.(bio := value)
    case LocationField => p.(location := value)
  }

  // ---------------------------------------------------------------- the schedule grid

  function SlotKey(day: string, slot: string): string {
    day + "_" + slot
  }

  /** `!!schedule[key]`: whether the checkbox for `key` is ticked. */
  predicate IsOpen(schedule: map<string, bool>, key: string) {
    key in schedule && schedule[key]
  }

  /** toggleSchedule: the slot's key is set to the negation of its truthiness. */
  function Toggled(p: Profile, day: string, slot: string): (r: Profile)
    ensures SlotKey(day, slot) in r.schedule
    ensures IsOpen(r.schedule, SlotKey(day, slot)) == !IsOpen(p.schedule, SlotKey(day, slot))
    ensures forall k :: k != SlotKey(day, slot) ==> (k in r.schedule <==> k in p.schedule)
    ensures forall k :: k != SlotKey(day, slot) && k in p.schedule ==> r.schedule[k] == p.schedule[k]
    ensures r == p.(schedule := r.schedule)
  {
    var key := SlotKey(day, slot);
    p.(schedule := p.schedule[key := !IsOpen(p.schedule, key)])
  }

  /** Ticking the same box twice restores every checkbox of the grid and every other field. */
  lemma ToggleTwice(p: Profile, day: string, slot: string)
    ensures forall k :: IsOpen(Toggled(Toggled(p, day, slot), day, slot).schedule, k) == IsOpen(p.schedule, k)
    ensures Toggled(Toggled(p, day, slot), day, slot) == p.(schedule := Toggled(Toggled(p, day, slot), day, slot).schedule)
  {
    var key := SlotKey(day, slot);
    var twice := Toggled(Toggled(p, day, slot), day, slot);
    forall k ensures IsOpen(twice.schedule, k) == IsOpen(p.schedule, k) {
      if k != key {
        assert k in twice.schedule <==> k in p.schedule;
      }
    }
  }

  /**
   * What ticking twice does not restore: the map itself. A slot that was never ticked keeps
   * an explicit `false` entry afterwards.
   */
  lemma ToggleTwiceLeavesFalseEntry()
    ensures Toggled(Toggled(InitialProfile, "Mon", TimeSlots[0]), "Mon", TimeSlots[0]).schedule
            == map[SlotKey("Mon", TimeSlots[0]) := false]
    ensures Toggled(Toggled(InitialProfile, "Mon", TimeSlots[0]), "Mon", TimeSlots[0]) != InitialProfile
  {
    var key := SlotKey("Mon", TimeSlots[0]);
    assert key in Toggled(Toggled(InitialProfile, "Mon", TimeSlots[0]), "Mon", TimeSlots[0]).schedule;
  }

  /**
   * Splitting at the first occurrence of a separator that the left parts do not contain:
   * the keys "{day}_{slot}" and the labels "{day} {slot}" determine day and slot.
   */
  lemma SplitAtSeparator(c: char, d1: string, s1: string, d2: string, s2: string)
    requires c !in d1 && c !in d2
    requires d1 + [c] + s1 == d2 + [c] + s2
    ensures d1 == d2 && s1 == s2
  {
    var w := d1 + [c] + s1;
    FirstSeparator(c, d1, s1);
    FirstSeparator(c, d2, s2);
    assert |d1| == |d2|;
    assert d1 == w[..|d1|] == d2;
    assert s1 == w[|d1| + 1..] == s2;
  }

  /** In `d + [c] + s` with `c` not in `d`, the first `c` sits right after `d`. */
  lemma FirstSeparator(c: char, d: string, s: string)
    requires c !in d
    ensures (d + [c] + s)[|d|] == c
    ensures forall i :: 0 <= i < |d| ==> (d + [c] + s)[i] != c
  {
    forall i | 0 <= i < |d| ensures (d + [c] + s)[i] != c {
      assert (d + [c] + s)[i] == d[i];
    }
  }

  lemma DaysHaveNoSeparators()
    ensures forall d :: d in Days ==> '_' !in d && ' ' !in d
  {
  }

  /** Distinct cells of the grid have distinct keys. */
  lemma GridKeysDistinct(d1: string, s1: string, d2: string, s2: string)
    requires d1 in Days && d2 in Days
    requires SlotKey(d1, s1) == SlotKey(d2, s2)
    ensures d1 == d2 && s1 == s2
  {
    DaysHaveNoSeparators();
    SplitAtSeparator('_', d1, s1, d2, s2);
  }

  /** Ticking one cell of the grid leaves every other cell as it was. */
  lemma ToggleIsLocal(p: Profile, d: string, s: string, d2: string, s2: string)
    requires d in Days && d2 in Days
    requires d != d2 || s != s2
    ensures IsOpen(Toggled(p, d, s).schedule, SlotKey(d2, s2)) == IsOpen(p.schedule, SlotKey(d2, s2))
  {
    if SlotKey(d, s) == SlotKey(d2, s2) {
      GridKeysDistinct(d, s, d2, s2);
    }
  }

  /** The keys the grid can produce. */
  ghost predicate GridKeysOnly(schedule: map<string, bool>) {
    forall k :: k in schedule ==> exists d, s :: d in Days && s in TimeSlots && k == SlotKey(d, s)
  }

  lemma ToggleKeepsGridKeys(p: Profile, d: string, s: string)
    requires GridKeysOnly(p.schedule)
    requires d in Days && s in TimeSlots
    ensures GridKeysOnly(Toggled(p, d, s).schedule)
  {
    var r := Toggled(p, d, s);
    forall k | k in r.schedule
      ensures exists d', s' :: d' in Days && s' in TimeSlots && k == SlotKey(d', s')
    {
      if k == SlotKey(d, s) {
        assert d in Days && s in TimeSlots && k == SlotKey(d, s);
      } else {
        assert k in p.schedule;
      }
    }
  }

  // ---------------------------------------------------------------- preview projections

  /** `key.replace("_", " ")`: the first `from` is replaced, the rest are kept. */
  function ReplaceFirst(s: string, from: char, to: char): (r: string)
    ensures |r| == |s|
  {
    if s == [] then []
    else if s[0] == from then [to] + s[1..]
    else [s[0]] + ReplaceFirst(s[1..], from, to)
  }

  /** The preview label of a grid key is "{day} {slot}". */
  lemma {:induction false} SlotLabel(day: string, slot: string)
    requires '_' !in day
    ensures ReplaceFirst(SlotKey(day, slot), '_', ' ') == day + " " + slot
  {
    var key := SlotKey(day, slot);
    if day == [] {
      assert key[0] == '_' && key[1..] == slot;
      assert ReplaceFirst(key, '_', ' ') == [' '] + slot;
    } else {
      assert key[0] == day[0] && day[0] != '_';
      assert key[1..] == SlotKey(day[1..], slot);
      assert ReplaceFirst(key, '_', ' ') == [day[0]] + ReplaceFirst(key[1..], '_', ' ');
      SlotLabel(day[1..], slot);
      assert [day[0]] + (day[1..] + " " + slot) == day + " " + slot;
    }
  }

  /** The "Open Slots" list: the label of every key whose value is true. */
  function OpenSlotLabels(schedule: map<string, bool>): set<string> {
    set k | k in schedule && schedule[k] :: ReplaceFirst(k, '_', ' ')
  }

  /**
   * For a schedule filled from the grid, "{day} {slot}" is listed exactly when that cell is
   * ticked.
   */
  lemma OpenSlotListed(schedule: map<string, bool>, day: string, slot: string)
    requires GridKeysOnly(schedule)
    requires day in Days && slot in TimeSlots
    ensures day + " " + slot in OpenSlotLabels(schedule) <==> IsOpen(schedule, SlotKey(day, slot))
  {
    DaysHaveNoSeparators();
    SlotLabel(day, slot);
    if day + " " + slot in OpenSlotLabels(schedule) {
      var k :| k in schedule && schedule[k] && ReplaceFirst(k, '_', ' ') == day + " " + slot;
      var d, s :| d in Days && s in TimeSlots && k == SlotKey(d, s);
      SlotLabel(d, s);
      SplitAtSeparator(' ', d, s, day, slot);
    }
  }

  /** The labels of the ticked grid cells. */
  ghost function GridLabels(schedule: map<string, bool>): set<string> {
    set d, s | d in Days && s in TimeSlots && IsOpen(schedule, SlotKey(d, s)) :: d + " " + s
  }

  /** Every listed label is the label of a ticked grid cell. */
  lemma ListedIsGridLabel(schedule: map<string, bool>, text: string)
    requires GridKeysOnly(schedule)
    requires text in OpenSlotLabels(schedule)
    ensures text in GridLabels(schedule)
  {
    var k :| k in schedule && schedule[k] && ReplaceFirst(k, '_', ' ') == text;
    var d, s :| d in Days && s in TimeSlots && k == SlotKey(d, s);
    DaysHaveNoSeparators();
    SlotLabel(d, s);
    assert IsOpen(schedule, SlotKey(d, s)) && text == d + " " + s;
  }

  /** Every label of a ticked grid cell is listed. */
  lemma GridLabelIsListed(schedule: map<string, bool>, text: string)
    requires GridKeysOnly(schedule)
    requires text in GridLabels(schedule)
    ensures text in OpenSlotLabels(schedule)
  {
    var d, s :| d in Days && s in TimeSlots && IsOpen(schedule, SlotKey(d, s)) && text == d + " " + s;
    OpenSlotListed(schedule, d, s);
  }

  /**
   * The whole "Open Slots" list of a schedule filled from the grid: the labels "{day} {slot}"
   * of the ticked cells, and nothing else.
   */
  lemma OpenSlotPreview(schedule: map<string, bool>)
    requires GridKeysOnly(schedule)
    ensures OpenSlotLabels(schedule) == GridLabels(schedule)
  {
    forall text | text in OpenSlotLabels(schedule) ensures text in GridLabels(schedule) {
      ListedIsGridLabel(schedule, text);
    }
    forall text | text in GridLabels(schedule) ensures text in OpenSlotLabels(schedule) {
      GridLabelIsListed(schedule, text);
    }
  }

  /** The services the preview lists: those with a non-empty name, in order (`ListedServicesAppend`). */
  function ListedServices(services: seq<Service>): (r: seq<Service>)
    ensures forall x :: x in r <==> x in services && x.name != ""
  {
    if services == [] then []
    else (if services[0].name != "" then [services[0]] else []) + ListedServices(services[1..])
  }

  /** Listing keeps the order of the rows: the listed rows of `a + b` are those of `a`, then those of `b`. */
  lemma {:induction false} ListedServicesAppend(a: seq<Service>, b: seq<Service>)
    ensures ListedServices(a + b) == ListedServices(a) + ListedServices(b)
    decreases |a|
  {
    if a == [] {
      assert a + b == b;
    } else {
      assert (a + b)[1..] == a[1..] + b;
      ListedServicesAppend(a[1..], b);
    }
  }

  /** "No services added yet." */
  predicate ShowsNoServices(services: seq<Service>) {
    |services| == 0 || forall i :: 0 <= i < |services| ==> services[i].name == ""
  }

  /** The notice is shown exactly when the list of named services is empty. */
  lemma NoServicesNotice(services: seq<Service>)
    ensures ShowsNoServices(services) <==> ListedServices(services) == []
  {
    if ListedServices(services) == [] && |services| > 0 {
      forall i | 0 <= i < |services| ensures services[i].name == "" {
        assert services[i] in services;
      }
    }
  }

  lemma InitialProfileShowsNoServices()
    ensures |InitialProfile.services| == 1 && ShowsNoServices(InitialProfile.services)
  {
  }

  // ---------------------------------------------------------------- services and pictures

  /** addService: an empty row is appended. */
  function WithServiceAdded(p: Profile): (r: Profile)
    ensures |r.services| == |p.services| + 1
    ensures r.services[..|p.services|] == p.services && r.services[|p.services|] == EmptyService
    ensures r == p.(services := r.services)
  {
    p.(services := p.services + [EmptyService])
  }

  /** `services.filter((_, i) => i !== index)`, keeping the rows by position in order. */
  function Without(services: seq<Service>, index: int): seq<Service>
    decreases |services|
  {
    if services == [] then []
    else
      var last := |services| - 1;
      Without(services[..last], index) + (if last == index then [] else [services[last]])
  }

  /** Dropping a row removes exactly that row; an index out of range removes nothing. */
  lemma {:induction false} WithoutSpec(services: seq<Service>, index: int)
    ensures 0 <= index < |services| ==> Without(services, index) == services[..index] + services[index + 1..]
    ensures !(0 <= index < |services|) ==> Without(services, index) == services
    decreases |services|
  {
    if services != [] {
      var last := |services| - 1;
      var init := services[..last];
      var rest := Without(init, index);
      assert Without(services, index) == rest + (if last == index then [] else [services[last]]);
      WithoutSpec(init, index);
      if 0 <= index < last {
        assert rest == init[..index] + init[index + 1..];
        assert init[..index] == services[..index];
        assert init[index + 1..] + [services[last]] == services[index + 1..];
      } else if index == last {
        assert rest == init && services[index + 1..] == [];
      } else {
        assert rest == init && init + [services[last]] == services;
      }
    }
  }

  /** removeService. */
  function WithServiceRemoved(p: Profile, index: int): (r: Profile)
    ensures r == p.(services := r.services)
    ensures 0 <= index < |p.services| ==>
              |r.services| == |p.services| - 1
              && r.services == p.services[..index] + p.services[index + 1..]
    ensures !(0 <= index < |p.services|) ==> r == p
  {
    WithoutSpec(p.services, index);
    p.(services := Without(p.services, index))
  }

  /** Removing the row just added gives back the profile from before. */
  lemma RemoveUndoesAdd(p: Profile)
    ensures WithServiceRemoved(WithServiceAdded(p), |p.services|) == p
  {
    var added := WithServiceAdded(p);
    assert added.services[..|p.services|] == p.services;
  }

  datatype ServiceField = ServiceName | ServicePrice

  function WithServiceField(s: Service, f: ServiceField, value: string): Service {
    match f
    case ServiceName => s.(name := value)
    case ServicePrice => s.(price := value)
  }

  /** handleImageUpload: the new references go after the existing pictures, in file order. */
  function WithPictures(p: Profile, urls: seq<string>): (r: Profile)
    ensures |r.pictures| == |p.pictures| + |urls|
    ensures r.pictures[..|p.pictures|] == p.pictures && r.pictures[|p.pictures|..] == urls
    ensures r == p.(pictures := r.pictures)
  {
    p.(pictures := p.pictures + urls)
  }

  // ---------------------------------------------------------------- the page's state

  /** The `profile` state cell of the page and its handlers. */
  class ProfilePage {
    var profile: Profile

    constructor ()
      ensures profile == InitialProfile
    {
      profile := InitialProfile;
    }

    method HandleChange(f: TextField, value: string)
      modifies this
      ensures profile == WithField(old(profile), f, value)
    {
      profile := WithField(profile, f, value);
    }

    method ToggleSchedule(day: string, slot: string)
      modifies this
      ensures profile == Toggled(old(profile), day, slot)
    {
      profile := Toggled(profile, day, slot);
    }

    /**
     * handleServiceChange: copies the list and sets one field of the row at `index`. For an
     * index with no row, `newServices[index]` is undefined and setting a field on it throws
     * before the state is touched; `ok` is false then.
     */
    method HandleServiceChange(index: int, f: ServiceField, value: string) returns (ok: bool)
      modifies this
      ensures ok <==> 0 <= index < |old(profile).services|
      ensures ok ==> profile == old(profile).(services :=
                old(profile).services[index := WithServiceField(old(profile).services[index], f, value)])
      ensures !ok ==> profile == old(profile)
    {
      var newServices := profile.services;
      if !(0 <= index < |newServices|) {
        return false;
      }
      newServices := newServices[index := WithServiceField(newServices[index], f, value)];
      profile := profile.(services := newServices);
      ok := true;
    }

    method AddService()
      modifies this
      ensures profile == WithServiceAdded(old(profile))
    {
      profile := WithServiceAdded(profile);
    }

    method RemoveService(index: int)
      modifies this
      ensures profile == WithServiceRemoved(old(profile), index)
    {
      profile := WithServiceRemoved(profile, index);
    }

    /** `urls` are the object URLs created for the selected files, in file order. */
    method HandleImageUpload(urls: seq<string>)
      modifies this
      ensures profile == WithPictures(old(profile), urls)
    {
      profile := WithPictures(profile, urls);
    }
  }
}
