/**
 * The tank-selection page that finishes a registration, in its two copies:
 * src/components/TankSelection.tsx (`Root`: location, then its sites, then
 * each site's tanks) and vermi-backend/src/components/TankSelection.tsx
 * (`Backend`: location, then its tanks).  Both share the checkbox toggle
 * and the submit chain: empty selection, missing pending registration,
 * (Backend only) location lookup, duplicate-email check, registration.
 */
module TankSelection {
  import opened Base
  import opened WebStorage
  import opened Auth
  import opened UserSession

  datatype Variant = Root | Backend

  datatype Location = Location(id: string, name: string)

  datatype Site = Site(siteId: int, siteName: string, locationId: string)

  datatype Tank = Tank(id: string, name: string, description: Option<string>)

  /** One entry of the `tanksBySite` record. */
  datatype SiteTanks = SiteTanks(siteId: int, tanks: seq<Tank>)

  datatype Loading = Loading(locations: bool, sites: bool, tanks: bool, submission: bool)

  datatype Errors = Errors(locations: string, sites: string, tanks: string, submission: string)

  /** `emailConflict`: `{exists, email}` of the source. */
  datatype EmailConflict = EmailConflict(accountExists: bool, email: string)

  /**
   * The router state the login page receives, `{fromTankSelection,
   * prefilledEmail}`; an absent field reads as `false` or `''`.
   */
  datatype LoginState = LoginState(fromTankSelection: bool, prefilledEmail: string)

  /** The `{name, email, password}` parsed from `tempAuthData`. */
  datatype Pending = Pending(name: string, email: string, password: string)

  predicate NoDup<T(==)>(s: seq<T>) {
    forall i, j :: 0 <= i < j < |s| ==> s[i] != s[j]
  }

  // ---------------------------------------------------------------------
  // the checkbox toggle

  /** `prev.filter(id => id !== tankId)` */
  function Without(s: seq<string>, id: string): (r: seq<string>)
    ensures id !in r
    ensures forall x :: x != id ==> (x in r <==> x in s)
    ensures id !in s ==> r == s
    ensures |r| <= |s|
  {
    if s == [] then [] else (if s[0] == id then [] else [s[0]]) + Without(s[1..], id)
  }

  /** `handleCheckboxChange`: remove the id when it is selected, append it otherwise. */
  function Toggle(s: seq<string>, id: string): (r: seq<string>)
    ensures id in r <==> id !in s
    ensures forall x :: x != id ==> (x in r <==> x in s)
    ensures id !in s ==> r[..|r| - 1] == s && r[|r| - 1] == id
  {
    if id in s then Without(s, id) else s + [id]
  }

  lemma {:induction false} WithoutKeepsNoDup(s: seq<string>, id: string)
    requires NoDup(s)
    ensures NoDup(Without(s, id))
  {
    if s != [] {
      WithoutKeepsNoDup(s[1..], id);
      assert NoDup(s[1..]) by {
        forall i, j | 0 <= i < j < |s[1..]| ensures s[1..][i] != s[1..][j] {
          assert s[1..][i] == s[i + 1] && s[1..][j] == s[j + 1];
        }
      }
      var rest := Without(s[1..], id);
      if s[0] != id {
        assert s[0] !in s[1..];
        assert s[0] !in rest;
        var r := [s[0]] + rest;
        forall i, j | 0 <= i < j < |r| ensures r[i] != r[j] {
          if i == 0 {
            assert r[j] == rest[j - 1];
          } else {
            assert r[i] == rest[i - 1] && r[j] == rest[j - 1];
          }
        }
      }
    }
  }

  /** Toggling never introduces a duplicate into a duplicate-free selection. */
  lemma ToggleKeepsNoDup(s: seq<string>, id: string)
    requires NoDup(s)
    ensures NoDup(Toggle(s, id))
  {
    if id in s {
      WithoutKeepsNoDup(s, id);
    } else {
      var r := s + [id];
      forall i, j | 0 <= i < j < |r| ensures r[i] != r[j] {
        if j == |s| {
          assert r[i] == s[i];
        }
      }
    }
  }

  lemma {:induction false} WithoutAppended(s: seq<string>, id: string)
    requires id !in s
    ensures Without(s + [id], id) == s
  {
    if s == [] {
      assert Without([id], id) == [] + Without([], id);
    } else {
      assert (s + [id])[1..] == s[1..] + [id];
      WithoutAppended(s[1..], id);
    }
  }

  /**
   * Toggling the same id twice restores the selection as a set, and
   * restores the sequence itself when the id was not selected before.
   */
  lemma ToggleTwice(s: seq<string>, id: string)
    ensures forall x :: x in Toggle(Toggle(s, id), id) <==> x in s
    ensures id !in s ==> Toggle(Toggle(s, id), id) == s
  {
    if id !in s {
      WithoutAppended(s, id);
    }
  }

  /**
   * When the id was selected and is not the last one, the second toggle
   * puts it back at the end: the order of the selection changes.
   */
  lemma ToggleTwiceReorders()
    ensures Toggle(Toggle(["a", "b"], "a"), "a") == ["b", "a"]
  {
    assert Without(["a", "b"], "a") == ["b"];
  }

  // ---------------------------------------------------------------------
  // tanksBySite (Root): a record keyed by site id

  /** The site ids of the record's entries, in order. */
  function Keys(m: seq<SiteTanks>): seq<int> {
    seq(|m|, i requires 0 <= i < |m| => m[i].siteId)
  }

  /** `tanksBySite[siteId] || []` */
  function Lookup(m: seq<SiteTanks>, k: int): seq<Tank> {
    if m == [] then [] else if m[0].siteId == k then m[0].tanks else Lookup(m[1..], k)
  }

  /** `Object.values(tanksBySite).reduce((sum, tanks) => sum + tanks.length, 0)` */
  function TotalTanks(m: seq<SiteTanks>): nat {
    if m == [] then 0 else |m[0].tanks| + TotalTanks(m[1..])
  }

  /** `newTanksBySite[siteId] = tanks`: overwrite the entry for `k`, or add one. */
  function Put(m: seq<SiteTanks>, k: int, v: seq<Tank>): seq<SiteTanks> {
    if m == [] then [SiteTanks(k, v)]
    else if m[0].siteId == k then [SiteTanks(k, v)] + m[1..]
    else [m[0]] + Put(m[1..], k, v)
  }

  lemma KeysCons(m: seq<SiteTanks>)
    requires m != []
    ensures Keys(m) == [m[0].siteId] + Keys(m[1..])
  {
  }

  /** Writing the entry for `k` adds `k` to the keys exactly when it was absent. */
  lemma {:induction false} PutKeys(m: seq<SiteTanks>, k: int, v: seq<Tank>)
    ensures Keys(Put(m, k, v)) == if k in Keys(m) then Keys(m) else Keys(m) + [k]
  {
    if m != [] {
      KeysCons(m);
      KeysCons(Put(m, k, v));
      if m[0].siteId != k {
        PutKeys(m[1..], k, v);
      }
    }
  }

  /** After writing the entry for `k`, `k` holds `v`. */
  lemma {:induction false} PutLookup(m: seq<SiteTanks>, k: int, v: seq<Tank>)
    ensures Lookup(Put(m, k, v), k) == v
  {
    if m != [] && m[0].siteId != k {
      PutLookup(m[1..], k, v);
    }
  }

  /** A new entry adds the length of its list to the total. */
  lemma {:induction false} PutTotal(m: seq<SiteTanks>, k: int, v: seq<Tank>)
    requires k !in Keys(m)
    ensures TotalTanks(Put(m, k, v)) == TotalTanks(m) + |v|
  {
    if m != [] {
      KeysCons(m);
      PutTotal(m[1..], k, v);
    }
  }

  /** Writing one site's entry leaves every other site's entry as it was. */
  lemma {:induction false} PutOther(m: seq<SiteTanks>, k: int, v: seq<Tank>, other: int)
    requires other != k
    ensures Lookup(Put(m, k, v), other) == Lookup(m, other)
  {
    if m != [] && m[0].siteId != k {
      PutOther(m[1..], k, v, other);
    }
  }

  function SiteIds(sites: seq<Site>): (ids: seq<int>)
    ensures |ids| == |sites|
    ensures forall i :: 0 <= i < |sites| ==> ids[i] == sites[i].siteId
  {
    seq(|sites|, i requires 0 <= i < |sites| => sites[i].siteId)
  }

  /** No site after position `j` and before `n` has the same id as site `j`. */
  predicate LastBefore(sites: seq<Site>, j: int, n: int)
    requires 0 <= j < n <= |sites|
  {
    forall l :: j < l < n ==> sites[l].siteId != sites[j].siteId
  }

  /** Whether `Promise.all` rejects: some fetch failed. */
  predicate AnyFailed(answers: seq<Result<seq<Tank>>>) {
    exists i :: 0 <= i < |answers| && answers[i].Err?
  }

  /** The number of tanks the fetches returned, summed from the first site. */
  function FetchedCount(answers: seq<Result<seq<Tank>>>): nat {
    if answers == [] then 0
    else
      var last := answers[|answers| - 1];
      FetchedCount(answers[..|answers| - 1]) + (if last.Ok? then |last.value| else 0)
  }

  // ---------------------------------------------------------------------
  // the submit chain

  /** A field of the stored `tempAuthData`; a missing or non-string field reads as "". */
  function FieldText(fields: map<string, Scalar>, key: string): string {
    if key in fields && fields[key].Str? then fields[key].s else ""
  }

  /** `JSON.parse(authData)`: text that is not a JSON object throws `parseFailure`. */
  function ParseTempAuth(v: Stored, parseFailure: Thrown): (r: Result<Pending>)
    ensures r.Ok? <==> v.Json?
    ensures r.Ok? ==> r.value.email == FieldText(v.fields, "email")
  {
    match v
    case Text(_) => Err(parseFailure)
    case Json(f) => Ok(Pending(FieldText(f, "name"), FieldText(f, "email"), FieldText(f, "password")))
  }

  /** `locations.find(loc => String(loc.id) === String(selectedLocationId))` */
  function FindLocation(locations: seq<Location>, id: string): (r: Option<Location>)
    ensures r.None? <==> forall i :: 0 <= i < |locations| ==> locations[i].id != id
    ensures r.Some? ==> r.value in locations && r.value.id == id
  {
    if locations == [] then None
    else if locations[0].id == id then Some(locations[0])
    else FindLocation(locations[1..], id)
  }

  /**
   * The submission error the `catch` block leaves: the thrown message, or
   * the fallback when it is empty or `undefined`.  A thrown `null` makes
   * `error.message` itself throw inside the `catch`, so the error stays the
   * "" it was reset to.
   */
  function SubmissionError(t: Thrown): (r: string)
    ensures t.ThrownValue? && t.message != "" ==> r == t.message
    ensures t.ThrownValue? && t.message == "" ==> r == "Registration failed. Please try again."
    ensures t.ThrownNoMessage? ==> r == "Registration failed. Please try again."
    ensures t.ThrownNull? ==> r == ""
  {
    if t.ThrownNull? then ""
    else if t.ThrownNoMessage? then "Registration failed. Please try again."
    else MessageOr(t.message, "Registration failed. Please try again.")
  }

  /** Where the submit chain ends once both guards have passed. */
  datatype SubmitStep =
    | Halt(message: string)                 // before any request
    | LookupFailed(email: string, message: string)
    | Conflict(email: string)
    | Register(opts: RegisterOptions)

  function Precheck(variant: Variant, pending: Result<Pending>, locations: seq<Location>,
                    locationId: string, selected: seq<string>, emailCheck: Result<nat>): (step: SubmitStep)
    ensures step.Halt? <==>
              pending.Err? || (variant == Backend && FindLocation(locations, locationId).None?)
    ensures step.Halt? && pending.Err? ==> step.message == SubmissionError(pending.thrown)
    ensures step.Halt? && pending.Ok? ==> step.message == "Selected location not found"
    ensures !step.Halt? ==> pending.Ok?
    ensures (step.LookupFailed? || step.Conflict?) ==> step.email == pending.value.email
    ensures step.LookupFailed? <==> !step.Halt? && emailCheck.Err?
    ensures step.LookupFailed? ==> step.message == SubmissionError(emailCheck.thrown)
    ensures step.Conflict? <==> !step.Halt? && emailCheck.Ok? && emailCheck.value > 0
    ensures step.Register? <==> !step.Halt? && emailCheck == Ok(0)
    ensures step.Register? ==>
              step.opts == RegisterOptions(pending.value.name, pending.value.email, pending.value.password, locationId, selected)
  {
    if pending.Err? then Halt(SubmissionError(pending.thrown))
    else if variant == Backend && FindLocation(locations, locationId).None? then
      Halt(SubmissionError(ThrownValue(true, "Selected location not found")))
    else
      var p := pending.value;
      if emailCheck.Err? then LookupFailed(p.email, SubmissionError(emailCheck.thrown))
      else if emailCheck.value > 0 then Conflict(p.email)
      else Register(RegisterOptions(p.name, p.email, p.password, locationId, selected))
  }

  /** The storage after a successful registration: the session's keys in, `tempAuthData` out. */
  function StoreRegistration(storage: map<string, Stored>, reg: Registered): (r: map<string, Stored>)
    ensures "tempAuthData" !in r && "accessToken" in r && "userId" in r && "email" in r
    ensures r["accessToken"] == Text(reg.session.accessToken) && r["userId"] == Text(reg.session.user.id)
    ensures r["email"] == Text(if reg.session.user.email.Some? then reg.session.user.email.value else "")
    ensures forall k :: k in storage && k !in {"accessToken", "userId", "email", "tempAuthData"} ==> k in r && r[k] == storage[k]
  {
    var email := if reg.session.user.email.Some? then reg.session.user.email.value else "";
    storage["accessToken" := Text(reg.session.accessToken)]["userId" := Text(reg.session.user.id)]
           ["email" := Text(email)] - {"tempAuthData"}
  }

  /**
   * Whether the submit button is shown and enabled.  Root shows it only
   * for a non-empty selection and disables it while submitting; Backend
   * always shows it and also disables it for an empty selection and an
   * email conflict.
   */
  function SubmitEnabled(variant: Variant, selected: seq<string>, submitting: bool, conflict: bool): (r: bool)
    ensures r ==> selected != [] && !submitting
    ensures variant == Backend ==> (!r <==> selected == [] || submitting || conflict)
    ensures variant == Root ==> (r <==> selected != [] && !submitting)
  {
    match variant
    case Root => |selected| > 0 && !submitting
    case Backend => !(|selected| == 0 || submitting || conflict)
  }

  // ---------------------------------------------------------------------
  // the forEach that fills newTanksBySite (Root)

  /** The values of `s` in order of first occurrence. */
  function Dedup(s: seq<int>): seq<int> {
    if s == [] then []
    else
      var d := Dedup(s[..|s| - 1]);
      if s[|s| - 1] in d then d else d + [s[|s| - 1]]
  }

  lemma {:induction false} DedupFacts(s: seq<int>)
    ensures NoDup(Dedup(s))
    ensures forall x :: x in Dedup(s) <==> x in s
  {
    if s != [] {
      var init, x := s[..|s| - 1], s[|s| - 1];
      DedupFacts(init);
      assert s == init + [x];
      var d := Dedup(init);
      if x !in d {
        var r := d + [x];
        forall a, b | 0 <= a < b < |r| ensures r[a] != r[b] {
          assert r[a] == d[a];
          if b < |d| { assert r[b] == d[b]; } else { assert r[b] == x; }
        }
      }
    }
  }

  /** `newTanksBySite` after the `forEach` has visited the first `n` sites. */
  function GatherUpTo(sites: seq<Site>, answers: seq<Result<seq<Tank>>>, n: nat): seq<SiteTanks>
    requires |answers| == |sites| && n <= |sites| && !AnyFailed(answers)
  {
    if n == 0 then [] else Put(GatherUpTo(sites, answers, n - 1), sites[n - 1].siteId, answers[n - 1].value)
  }

  /**
   * The entries are keyed by the distinct site ids.  The order is that of
   * first appearance; JavaScript would list integer-like keys ascending,
   * but the page only sums the entries and looks them up by site id, so
   * the order is not observable.
   */
  lemma {:induction false} GatherKeys(sites: seq<Site>, answers: seq<Result<seq<Tank>>>, n: nat)
    requires |answers| == |sites| && n <= |sites| && !AnyFailed(answers)
    ensures Keys(GatherUpTo(sites, answers, n)) == Dedup(SiteIds(sites)[..n])
  {
    if n > 0 {
      var ids := SiteIds(sites);
      GatherKeys(sites, answers, n - 1);
      PutKeys(GatherUpTo(sites, answers, n - 1), sites[n - 1].siteId, answers[n - 1].value);
      assert ids[..n][..n - 1] == ids[..n - 1];
    } else {
      assert Keys([]) == [];
    }
  }

  /** Each of the first `i` sites that is the last with its id has its list as the entry. */
  ghost predicate LookupsLatest(sites: seq<Site>, answers: seq<Result<seq<Tank>>>, m: seq<SiteTanks>, i: nat)
    requires |answers| == |sites| && i <= |sites| && !AnyFailed(answers)
  {
    forall j :: 0 <= j < i && LastBefore(sites, j, i) ==> Lookup(m, sites[j].siteId) == answers[j].value
  }

  /** A later site with the same id overwrites an earlier one's entry. */
  lemma {:induction false} GatherLookups(sites: seq<Site>, answers: seq<Result<seq<Tank>>>, n: nat)
    requires |answers| == |sites| && n <= |sites| && !AnyFailed(answers)
    ensures LookupsLatest(sites, answers, GatherUpTo(sites, answers, n), n)
  {
    if n > 0 {
      var m := GatherUpTo(sites, answers, n - 1);
      GatherLookups(sites, answers, n - 1);
      var i, k := n - 1, sites[n - 1].siteId;
      assert answers[i].Ok?;
      PutLookup(m, k, answers[i].value);
      forall j | 0 <= j < n && LastBefore(sites, j, n)
        ensures Lookup(Put(m, k, answers[i].value), sites[j].siteId) == answers[j].value
      {
        if j < i {
          assert sites[i].siteId != sites[j].siteId;
          assert LastBefore(sites, j, i);
          PutOther(m, k, answers[i].value, sites[j].siteId);
        }
      }
    }
  }

  lemma PrefixNoDup(ids: seq<int>, i: nat)
    requires i < |ids| && NoDup(ids[..i + 1])
    ensures NoDup(ids[..i]) && ids[i] !in ids[..i]
  {
    forall a, b | 0 <= a < b < i ensures ids[..i][a] != ids[..i][b] {
      assert ids[..i][a] == ids[..i + 1][a] && ids[..i][b] == ids[..i + 1][b];
    }
    forall a | 0 <= a < i ensures ids[..i][a] != ids[i] {
      assert ids[..i + 1][a] == ids[..i][a] && ids[..i + 1][i] == ids[i];
    }
  }

  /** With distinct site ids every fetched list is counted exactly once. */
  lemma {:induction false} GatherTotal(sites: seq<Site>, answers: seq<Result<seq<Tank>>>, n: nat)
    requires |answers| == |sites| && n <= |sites| && !AnyFailed(answers)
    ensures NoDup(SiteIds(sites)[..n]) ==> TotalTanks(GatherUpTo(sites, answers, n)) == FetchedCount(answers[..n])
  {
    var ids := SiteIds(sites);
    if n > 0 && NoDup(ids[..n]) {
      var i := n - 1;
      var m := GatherUpTo(sites, answers, i);
      PrefixNoDup(ids, i);
      GatherTotal(sites, answers, i);
      GatherKeys(sites, answers, i);
      DedupFacts(ids[..i]);
      assert ids[i] !in Keys(m);
      assert answers[i].Ok?;
      PutTotal(m, ids[i], answers[i].value);
      assert answers[..n][..i] == answers[..i];
    } else if n == 0 {
      assert answers[..0] == [];
    }
  }

  /**
   * The `forEach` of Root's `loadTanksForSites` that fills `newTanksBySite`
   * from the fetched lists once every fetch succeeded: one entry per site
   * id, in order of first appearance, holding the list of the last site
   * with that id.
   */
  method GatherTanks(sites: seq<Site>, answers: seq<Result<seq<Tank>>>) returns (m: seq<SiteTanks>)
    requires |answers| == |sites| && !AnyFailed(answers)
    ensures Keys(m) == Dedup(SiteIds(sites))
    ensures NoDup(Keys(m))
    ensures forall k :: k in Keys(m) <==> k in SiteIds(sites)
    ensures forall i :: 0 <= i < |sites| && LastBefore(sites, i, |sites|) ==> Lookup(m, sites[i].siteId) == answers[i].value
    ensures NoDup(SiteIds(sites)) ==> TotalTanks(m) == FetchedCount(answers)
  {
    m := [];
    var i := 0;
    while i < |sites|
      invariant 0 <= i <= |sites|
      invariant m == GatherUpTo(sites, answers, i)
    {
      m, i := Put(m, sites[i].siteId, answers[i].value), i + 1;
    }
    GatherKeys(sites, answers, |sites|);
    GatherLookups(sites, answers, |sites|);
    GatherTotal(sites, answers, |sites|);
    DedupFacts(SiteIds(sites));
    assert SiteIds(sites)[..|sites|] == SiteIds(sites);
    assert answers[..|answers|] == answers;
  }

  class TankSelectionPage {
    const variant: Variant
    const browser: Browser
    const userStore: UserStore
    var locations: seq<Location>
    /** Root only: the sites of the selected location. */
    var sites: seq<Site>
    /** Root only: the tanks of each site. */
    var tanksBySite: seq<SiteTanks>
    /** Backend only: the tanks of the selected location. */
    var tanks: seq<Tank>
    var selectedLocationId: string
    var selectedTanks: seq<string>
    var loading: Loading
    var error: Errors
    var emailConflict: EmailConflict

    predicate Linked() {
      userStore.browser == browser
    }

    constructor (variant: Variant, browser: Browser, userStore: UserStore)
      requires userStore.browser == browser
      ensures Linked()
      ensures this.variant == variant && this.browser == browser && this.userStore == userStore
      ensures locations == [] && sites == [] && tanksBySite == [] && tanks == []
      ensures selectedLocationId == "" && selectedTanks == []
      ensures loading == Loading(true, false, false, false)
      ensures error == Errors("", "", "", "")
      ensures emailConflict == EmailConflict(false, "")
    {
      this.variant, this.browser, this.userStore := variant, browser, userStore;
      locations, sites, tanksBySite, tanks := [], [], [], [];
      selectedLocationId, selectedTanks := "", [];
      loading := Loading(true, false, false, false);
      error := Errors("", "", "", "");
      emailConflict := EmailConflict(false, "");
    }

    /** `loadLocations` on mount. */
    method LoadLocations(answer: Result<seq<Location>>)
      modifies this`locations, this`error, this`loading
      ensures locations == if answer.Ok? then answer.value else old(locations)
      ensures error == if answer.Ok? then old(error)
                       else old(error).(locations := "Failed to load locations. Please try again later.")
      ensures loading == old(loading).(locations := false)
    {
      if answer.Ok? {
        locations := answer.value;
      } else {
        error := error.(locations := "Failed to load locations. Please try again later.");
      }
      loading := loading.(locations := false);
    }

    /** Picking a location, or "Change Location" with `id == ""`. */
    method SelectLocation(id: string)
      modifies this`selectedLocationId
      ensures selectedLocationId == id
    {
      selectedLocationId := id;
    }

    method HandleCheckboxChange(tankId: string)
      modifies this`selectedTanks
      ensures selectedTanks == Toggle(old(selectedTanks), tankId)
    {
      if tankId in selectedTanks {
        selectedTanks := Without(selectedTanks, tankId);
      } else {
        selectedTanks := selectedTanks + [tankId];
      }
    }

    /**
     * Root's `loadSites` effect.  Without a location it empties `sites`
     * and `tanksBySite`; otherwise it queries the location's sites.
     * `loading.tanks` is raised here and lowered only by the tanks effect.
     */
    method LoadSites(answer: Result<seq<Site>>) returns (queried: Option<string>)
      requires variant == Root
      modifies this`sites, this`tanksBySite, this`loading, this`error
      ensures selectedLocationId == "" ==>
                queried == None && sites == [] && tanksBySite == [] && loading == old(loading) && error == old(error)
      ensures selectedLocationId != "" ==>
                queried == Some(selectedLocationId) && loading == old(loading).(sites := false, tanks := true)
      ensures selectedLocationId != "" && answer.Ok? ==>
                sites == answer.value && tanksBySite == [] && error == old(error).(sites := "", tanks := "")
      ensures selectedLocationId != "" && answer.Err? ==>
                sites == old(sites) && tanksBySite == old(tanksBySite)
                && error == old(error).(sites := "Failed to load sites for this location.", tanks := "")
    {
      if selectedLocationId == "" {
        sites, tanksBySite := [], [];
        return None;
      }
      queried := Some(selectedLocationId);
      loading := loading.(sites := true, tanks := true);
      error := error.(sites := "", tanks := "");
      if answer.Ok? {
        sites := answer.value;
        tanksBySite := [];
      } else {
        error := error.(sites := "Failed to load sites for this location.");
      }
      loading := loading.(sites := false);
    }

    /**
     * Root's `loadTanksForSites` effect: one fetch per site, all issued;
     * if every fetch succeeds the results are gathered into `tanksBySite`
     * site by site, a later site overwriting an earlier one with the same id.
     */
    method LoadTanksForSites(answers: seq<Result<seq<Tank>>>) returns (requested: seq<string>)
      requires variant == Root
      requires |answers| == |sites|
      modifies this`tanksBySite, this`loading, this`error
      ensures sites == [] || selectedLocationId == "" ==>
                requested == [] && tanksBySite == old(tanksBySite) && loading == old(loading) && error == old(error)
      ensures sites != [] && selectedLocationId != "" ==>
                |requested| == |sites| && (forall i :: 0 <= i < |sites| ==> requested[i] == IntToString(sites[i].siteId))
                && loading == old(loading).(tanks := false)
      ensures sites != [] && selectedLocationId != "" && AnyFailed(answers) ==>
                tanksBySite == old(tanksBySite) && error == old(error).(tanks := "Failed to load tanks for these sites.")
      ensures sites != [] && selectedLocationId != "" && !AnyFailed(answers) ==>
                error == old(error).(tanks := "")
                && NoDup(Keys(tanksBySite))
                && (forall k :: k in Keys(tanksBySite) <==> k in SiteIds(sites))
                && (forall i :: 0 <= i < |sites| && LastBefore(sites, i, |sites|) ==>
                      Lookup(tanksBySite, sites[i].siteId) == answers[i].value)
                && (NoDup(SiteIds(sites)) ==> TotalTanks(tanksBySite) == FetchedCount(answers))
    {
      if |sites| == 0 || selectedLocationId == "" {
        return [];
      }
      loading := loading.(tanks := true);
      error := error.(tanks := "");
      var ss := sites;
      requested := seq(|ss|, i requires 0 <= i < |ss| => IntToString(ss[i].siteId));
      if exists i | 0 <= i < |answers| :: answers[i].Err? {
        error := error.(tanks := "Failed to load tanks for these sites.");
      } else {
        tanksBySite := GatherTanks(sites, answers);
      }
      loading := loading.(tanks := false);
    }

    /**
     * Backend's tanks effect.  Without a location it empties the tank list
     * and the selection; otherwise it fetches the location's tanks.
     */
    method LoadTanks(answer: Result<seq<Tank>>) returns (queried: Option<string>)
      requires variant == Backend
      modifies this`tanks, this`selectedTanks, this`loading, this`error
      ensures selectedLocationId == "" ==>
                queried == None && tanks == [] && selectedTanks == [] && loading == old(loading) && error == old(error)
      ensures selectedLocationId != "" ==>
                queried == Some(selectedLocationId) && selectedTanks == old(selectedTanks)
                && loading == old(loading).(tanks := false)
      ensures selectedLocationId != "" && answer.Ok? ==> tanks == answer.value && error == old(error).(tanks := "")
      ensures selectedLocationId != "" && answer.Err? ==>
                tanks == old(tanks) && error == old(error).(tanks := "Failed to load tanks for this location.")
    {
      if selectedLocationId == "" {
        tanks, selectedTanks := [], [];
        return None;
      }
      queried := Some(selectedLocationId);
      loading := loading.(tanks := true);
      error := error.(tanks := "");
      if answer.Ok? {
        tanks := answer.value;
      } else {
        error := error.(tanks := "Failed to load tanks for this location.");
      }
      loading := loading.(tanks := false);
    }

    /** Where the submit chain ends for these answers, given the page's current selection. */
    function Step(pending: Result<Pending>, emailCheck: Result<nat>): SubmitStep
      reads this
    {
      Precheck(variant, pending, locations, selectedLocationId, selectedTanks, emailCheck)
    }

    /**
     * The success branch of `handleSubmit`: store the session's token, user
     * id and email, drop `tempAuthData`, mark the user authenticated, run
     * `refreshUser` and go to the home page.
     */
    method CompleteRegistration(reg: Registered,
                                refreshSession: Result<Option<AuthSession>>, refreshProfile: Result<Option<Profile>>)
      requires Linked()
      modifies browser, userStore
      ensures browser.history == old(browser.history) + ["/homepage"]
      ensures browser.alerts == old(browser.alerts)
      ensures userStore.State() ==
                AfterRefresh(old(userStore.State()).(isAuthenticated := true, storage := StoreRegistration(old(browser.storage), reg)),
                             refreshSession, refreshProfile)
      ensures userStore.hasRun == old(userStore.hasRun) && userStore.mounted == old(userStore.mounted)
      ensures userStore.subscribed == old(userStore.subscribed)
    {
      var s := reg.session;
      browser.SetItem("accessToken", Text(s.accessToken));
      browser.SetItem("userId", Text(s.user.id));
      browser.SetItem("email", Text(if s.user.email.Some? then s.user.email.value else ""));
      browser.RemoveItem("tempAuthData");
      userStore.SetIsAuthenticated(true);
      var _ := userStore.RefreshUser(refreshSession, refreshProfile);
      browser.Navigate("/homepage");
    }

    /**
     * The `try` block of `handleSubmit`, from the parsed `tempAuthData` on:
     * location lookup (Backend), duplicate-email check, registration and,
     * on success, `CompleteRegistration`.  A failure leaves the message of
     * `SubmissionError` in `error.submission`.
     */
    method SubmitChain(pending: Result<Pending>, emailCheck: Result<nat>,
                       signUp: Result<()>, signIn: Result<SignInData>,
                       insertUser: Result<Option<int>>, insertTanks: Result<()>,
                       refreshSession: Result<Option<AuthSession>>, refreshProfile: Result<Option<Profile>>)
      returns (emailLookup: Option<string>, authCalls: seq<AuthCall>, registration: Option<Result<Registered>>)
      requires Linked()
      modifies this`loading, this`error, this`emailConflict, browser, userStore
      ensures loading == old(loading).(submission := old(loading.submission) && !Step(pending, emailCheck).Conflict?)
      ensures browser.alerts == old(browser.alerts)
      ensures userStore.hasRun == old(userStore.hasRun) && userStore.mounted == old(userStore.mounted)
      ensures userStore.subscribed == old(userStore.subscribed)
      ensures emailLookup.Some? <==> !Step(pending, emailCheck).Halt?
      ensures !Step(pending, emailCheck).Halt? ==> emailLookup == Some(pending.value.email)
      ensures registration.Some? <==> Step(pending, emailCheck).Register?
      ensures registration.None? ==> authCalls == []
      ensures Step(pending, emailCheck).Register? ==>
                authCalls != [] && authCalls[0] == SignUp(pending.value.email, pending.value.password, pending.value.name, Some("/homepage"))
      ensures Step(pending, emailCheck).Conflict? ==>
                emailConflict == EmailConflict(true, pending.value.email) && error == old(error)
      ensures !Step(pending, emailCheck).Conflict? ==> emailConflict == old(emailConflict)
      ensures Step(pending, emailCheck).Halt? || Step(pending, emailCheck).LookupFailed? ==>
                error == old(error).(submission := Step(pending, emailCheck).message)
      ensures registration.Some? && registration.value.Err? ==>
                error == old(error).(submission := SubmissionError(registration.value.thrown))
      ensures !(registration.Some? && registration.value.Ok?) ==>
                browser.storage == old(browser.storage) && browser.history == old(browser.history)
                && userStore.State() == old(userStore.State())
      ensures registration.Some? && registration.value.Ok? ==>
                error == old(error)
                && browser.history == old(browser.history) + ["/homepage"]
                && userStore.State() ==
                     AfterRefresh(old(userStore.State()).(isAuthenticated := true,
                                                           storage := StoreRegistration(old(browser.storage), registration.value.value)),
                                  refreshSession, refreshProfile)
    {
      emailLookup, authCalls, registration := None, [], None;
      if pending.Err? {
        error := error.(submission := SubmissionError(pending.thrown));
      } else if variant == Backend && FindLocation(locations, selectedLocationId).None? {
        error := error.(submission := SubmissionError(ThrownValue(true, "Selected location not found")));
      } else {
        var p := pending.value;
        emailLookup := Some(p.email);
        if emailCheck.Err? {
          error := error.(submission := SubmissionError(emailCheck.thrown));
        } else if emailCheck.value > 0 {
          emailConflict := EmailConflict(true, p.email);
          loading := loading.(submission := false);
        } else {
          var opts := RegisterOptions(p.name, p.email, p.password, selectedLocationId, selectedTanks);
          var r, c := RegisterUserAndAssignTanks(opts, signUp, signIn, insertUser, insertTanks);
          authCalls, registration := c, Some(r);
          if r.Err? {
            error := error.(submission := SubmissionError(r.thrown));
          } else {
            CompleteRegistration(r.value, refreshSession, refreshProfile);
          }
        }
      }
    }

    /**
     * `handleSubmit`.  `parseFailure` is what `JSON.parse` throws for a
     * `tempAuthData` that is not a JSON object, `emailCheck` the number of
     * `users` rows with the pending email, the next four the answers of the
     * registration's requests and the last two those of `refreshUser`.
     * `emailLookup` is the email the check queried and `authCalls` the
     * registration's requests.
     */
    method HandleSubmit(parseFailure: Thrown, emailCheck: Result<nat>,
                        signUp: Result<()>, signIn: Result<SignInData>,
                        insertUser: Result<Option<int>>, insertTanks: Result<()>,
                        refreshSession: Result<Option<AuthSession>>, refreshProfile: Result<Option<Profile>>)
      returns (emailLookup: Option<string>, authCalls: seq<AuthCall>, registration: Option<Result<Registered>>)
      requires Linked()
      modifies this`loading, this`error, this`emailConflict, browser, userStore
      // first guard: nothing but the submission error changes
      ensures selectedTanks == [] ==>
                emailLookup == None && authCalls == [] && registration == None
                && error == old(error).(submission := "Please select at least one tank")
                && loading == old(loading) && emailConflict == old(emailConflict)
                && browser.storage == old(browser.storage) && browser.history == old(browser.history)
                && browser.alerts == old(browser.alerts) && unchanged(userStore)
      // second guard: alert and back to the start, before any flag or request
      ensures selectedTanks != [] && !HasTruthyItem(old(browser.storage), "tempAuthData") ==>
                emailLookup == None && authCalls == [] && registration == None
                && browser.alerts == old(browser.alerts) + ["Missing registration data. Please start again."]
                && browser.history == old(browser.history) + ["/"]
                && browser.storage == old(browser.storage)
                && loading == old(loading) && error == old(error) && emailConflict == old(emailConflict)
                && unchanged(userStore)
      // past the guards: the submission flag always ends false
      ensures selectedTanks != [] && HasTruthyItem(old(browser.storage), "tempAuthData") ==>
                loading == old(loading).(submission := false) && browser.alerts == old(browser.alerts)
      ensures selectedTanks != [] && HasTruthyItem(old(browser.storage), "tempAuthData") ==>
                var pending := ParseTempAuth(old(browser.storage)["tempAuthData"], parseFailure);
                var step := Step(pending, emailCheck);
                && (emailLookup.Some? <==> !step.Halt?)
                && (!step.Halt? ==> emailLookup == Some(pending.value.email))
                && (registration.Some? <==> step.Register?)
                && (registration.None? ==> authCalls == [])
                && (step.Register? ==>
                      authCalls != [] && authCalls[0] == SignUp(pending.value.email, pending.value.password, pending.value.name, Some("/homepage")))
                && (step.Conflict? ==>
                      emailConflict == EmailConflict(true, pending.value.email) && error == old(error).(submission := ""))
                && (!step.Conflict? ==> emailConflict == EmailConflict(false, ""))
                && (step.Halt? || step.LookupFailed? ==> error == old(error).(submission := step.message))
                && (registration.Some? && registration.value.Err? ==>
                      error == old(error).(submission := SubmissionError(registration.value.thrown)))
      ensures selectedTanks != [] && HasTruthyItem(old(browser.storage), "tempAuthData") && !(registration.Some? && registration.value.Ok?) ==>
                browser.storage == old(browser.storage) && browser.history == old(browser.history)
                && userStore.State() == old(userStore.State())
      ensures registration.Some? && registration.value.Ok? ==>
                error == old(error).(submission := "")
                && browser.history == old(browser.history) + ["/homepage"]
                && userStore.State() ==
                     AfterRefresh(old(userStore.State()).(isAuthenticated := true,
                                                           storage := StoreRegistration(old(browser.storage), registration.value.value)),
                                  refreshSession, refreshProfile)
      ensures userStore.hasRun == old(userStore.hasRun) && userStore.mounted == old(userStore.mounted)
      ensures userStore.subscribed == old(userStore.subscribed)
    {
      emailLookup, authCalls, registration := None, [], None;
      if |selectedTanks| == 0 {
        error := error.(submission := "Please select at least one tank");
        return;
      }
      if !HasTruthyItem(browser.storage, "tempAuthData") {
        browser.Alert("Missing registration data. Please start again.");
        browser.Navigate("/");
        return;
      }
      loading := loading.(submission := true);
      error := error.(submission := "");
      emailConflict := EmailConflict(false, "");
      var pending := ParseTempAuth(browser.storage["tempAuthData"], parseFailure);
      emailLookup, authCalls, registration :=
        SubmitChain(pending, emailCheck, signUp, signIn, insertUser, insertTanks, refreshSession, refreshProfile);
      loading := loading.(submission := false);
    }

    /**
     * Backend's "Sign in instead": to the login page with the state
     * `{prefilledEmail}` only, so `fromTankSelection` reads as `false`.
     */
    method SignInInstead() returns (state: LoginState)
      requires variant == Backend && emailConflict.accountExists
      modifies browser
      ensures state == LoginState(false, emailConflict.email)
      ensures browser.history == old(browser.history) + ["/login"]
      ensures browser.storage == old(browser.storage) && browser.alerts == old(browser.alerts)
    {
      browser.Navigate("/login");
      state := LoginState(false, emailConflict.email);
    }
  }
}
