/**
 * The persona listing endpoint: after the session and profile checks it
 * strips each persona's private template and hides the one romantic persona
 * that does not match the user's stored gender.
 */
module PersonasRoute {
  import opened Wrappers
  import opened Types
  import opened Registry

  /** The stored user record; only the gender is read here, and it may be missing. */
  datatype Profile = Profile(gender: Option<string>)

  /** `{ success: true, personas }`, or `{ success: false, error }` with a status. */
  datatype PersonasResponse = PersonaList(personas: seq<Bot>) | Failure(status: int, error: string)

  /** The public view of a persona: every field except the template. */
  function Project(p: Persona): (b: Bot)
    ensures b.id == p.id && b.name == p.name && b.tagline == p.tagline
    ensures b.avatarUrl == p.avatarUrl && b.isOnline == p.isOnline
    ensures b.personalityProfile == p.personalityProfile
  {
    Bot(p.id, p.name, p.tagline, p.avatarUrl, p.isOnline, p.personalityProfile)
  }

  /** `map` of `Project`: same length, same order. */
  function ProjectAll(ps: seq<Persona>): (r: seq<Bot>)
    ensures |r| == |ps| && forall i | 0 <= i < |ps| :: r[i] == Project(ps[i])
  {
    if ps == [] then [] else [Project(ps[0])] + ProjectAll(ps[1..])
  }

  /** The id hidden from a user: 7 (the boyfriend persona) for `"male"`, 1 (the girlfriend) otherwise. */
  function ExcludedId(gender: Option<string>): int {
    if gender == Some("male") then 7 else 1
  }

  /** `filter(b => b.id != id)`. */
  function FilterOut(bs: seq<Bot>, id: int): (r: seq<Bot>)
    ensures |r| <= |bs|
  {
    if bs == [] then []
    else if bs[0].id == id then FilterOut(bs[1..], id)
    else [bs[0]] + FilterOut(bs[1..], id)
  }

  /** The filter keeps exactly the bots whose id differs. */
  lemma {:induction false} FilterOutMembers(bs: seq<Bot>, id: int)
    ensures forall b :: b in FilterOut(bs, id) <==> b in bs && b.id != id
  {
    if bs != [] {
      FilterOutMembers(bs[1..], id);
      assert bs == [bs[0]] + bs[1..];
    }
  }

  /** Filtering out an id nobody has changes nothing. */
  lemma {:induction false} FilterOutAbsent(bs: seq<Bot>, id: int)
    requires forall j | 0 <= j < |bs| :: bs[j].id != id
    ensures FilterOut(bs, id) == bs
  {
    if bs != [] {
      FilterOutAbsent(bs[1..], id);
    }
  }

  /**
   * Filtering out an id that exactly one bot has removes that bot and keeps
   * every other one in its place: one fewer entry, order preserved.
   */
  lemma {:induction false} FilterOutUnique(bs: seq<Bot>, k: nat)
    requires k < |bs|
    requires forall j | 0 <= j < |bs| && j != k :: bs[j].id != bs[k].id
    ensures FilterOut(bs, bs[k].id) == bs[..k] + bs[k + 1..]
    ensures |FilterOut(bs, bs[k].id)| == |bs| - 1
  {
    var id := bs[k].id;
    var tail := bs[1..];
    if k == 0 {
      assert forall j | 0 <= j < |tail| :: tail[j].id != id by {
        forall j | 0 <= j < |tail| ensures tail[j].id != id {
          assert tail[j] == bs[j + 1];
        }
      }
      FilterOutAbsent(tail, id);
    } else {
      assert tail[k - 1] == bs[k];
      assert forall j | 0 <= j < |tail| && j != k - 1 :: tail[j].id != id by {
        forall j | 0 <= j < |tail| && j != k - 1 ensures tail[j].id != id {
          assert tail[j] == bs[j + 1];
        }
      }
      FilterOutUnique(tail, k - 1);
      assert bs[0].id != id;
      assert FilterOut(bs, id) == [bs[0]] + (tail[..k - 1] + tail[k..]);
      assert [bs[0]] + (tail[..k - 1] + tail[k..]) == bs[..k] + bs[k + 1..];
    }
  }

  /** The list a user with stored gender `gender` is shown. */
  function Visible(gender: Option<string>): seq<Bot> {
    FilterOut(ProjectAll(PERSONAS), ExcludedId(gender))
  }

  /** What the profile query gives: it throws, finds nothing, or finds the record. */
  datatype Lookup = LookupFailed | NoUser | Found(profile: Profile)

  /**
   * The endpoint. `connected` is false when connecting to the user store
   * fails (before the session is read); `signedIn` is the presence of a
   * session; `lookup` is the outcome of querying the stored record for the
   * session's email, which only happens for a signed-in user.
   */
  function Get(connected: bool, signedIn: bool, lookup: Lookup): (r: PersonasResponse)
    ensures r.Failure? ==> r.status in {401, 404, 500}
    ensures r.Failure? && r.status == 500 <==> !connected || (signedIn && lookup.LookupFailed?)
    ensures r.Failure? && r.status == 401 <==> connected && !signedIn
    ensures r.Failure? && r.status == 404 <==> connected && signedIn && lookup.NoUser?
    ensures r.PersonaList? <==> connected && signedIn && lookup.Found?
    ensures r.PersonaList? ==> r.personas == Visible(lookup.profile.gender)
  {
    if !connected then Failure(500, "Failed to fetch personas")
    else if !signedIn then Failure(401, "Unauthorized")
    else match lookup
      case LookupFailed => Failure(500, "Failed to fetch personas")
      case NoUser => Failure(404, "User not found")
      case Found(profile) => PersonaList(Visible(profile.gender))
  }

  /** The public list keeps the registry's ids, all distinct. */
  lemma ProjectedIds()
    ensures |ProjectAll(PERSONAS)| == 7
    ensures forall j | 0 <= j < 7 :: ProjectAll(PERSONAS)[j].id == REGISTRY_IDS[j]
  {
    RegistryShape();
    assert forall j | 0 <= j < 7 :: PERSONAS[j].id == Ids(PERSONAS)[j];
  }

  /**
   * What each user sees: the registry without its templates and without
   * exactly the excluded persona, order kept; a male user never sees id 7 and
   * everybody else never sees id 1.
   */
  lemma VisibleList(gender: Option<string>)
    ensures var all := ProjectAll(PERSONAS);
      && (gender == Some("male") ==> Visible(gender) == all[..1] + all[2..])
      && (gender != Some("male") ==> Visible(gender) == all[1..])
    ensures |Visible(gender)| == 6
    ensures forall b | b in Visible(gender) :: b.id != ExcludedId(gender)
  {
    ProjectedIds();
    var all := ProjectAll(PERSONAS);
    FilterOutMembers(all, ExcludedId(gender));
    if gender == Some("male") {
      HideOne(all, 1);
      assert Visible(gender) == FilterOut(all, all[1].id);
    } else {
      HideOne(all, 0);
      assert Visible(gender) == FilterOut(all, all[0].id);
      assert all[..0] + all[1..] == all[1..];
    }
  }

  /** Hiding id 1 or id 7 from a list with the registry's ids removes exactly that entry. */
  lemma HideOne(all: seq<Bot>, k: nat)
    requires |all| == 7 && k < 2
    requires forall j | 0 <= j < 7 :: all[j].id == REGISTRY_IDS[j]
    ensures FilterOut(all, all[k].id) == all[..k] + all[k + 1..]
    ensures |FilterOut(all, all[k].id)| == 6
  {
    FilterOutUnique(all, k);
  }

  /** The romantic persona that is not excluded stays visible. */
  lemma OtherPartnerVisible(gender: Option<string>)
    ensures gender == Some("male") ==> Project(PERSONAS[0]) in Visible(gender)
    ensures gender != Some("male") ==> Project(PERSONAS[1]) in Visible(gender)
  {
    VisibleList(gender);
    var all := ProjectAll(PERSONAS);
    if gender == Some("male") {
      assert Visible(gender)[0] == all[0];
    } else {
      assert Visible(gender)[0] == all[1];
    }
  }
}
