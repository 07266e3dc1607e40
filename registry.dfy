/**
 * The persona registry: a constant list of seven chat personas. Each one
 * carries a private template (the instruction sent to the completion service)
 * and the public fields shown to users.
 */
module Registry {
  import opened Wrappers

  datatype Persona = Persona(
    id: int,
    name: string,
    tagline: string,
    persona: string,
    avatarUrl: string,
    isOnline: bool,
    personalityProfile: string)

  /**
   * The registry's entries. The templates and profiles are long prose; here
   * each one is a short non-empty stand-in, because only their presence
   * matters to the logic.
   */
  const SHALINI := Persona(1, "Shalini", "Your long-distance girlfriend", "shaliniPersona",
                           "shalini.png", true, "profile of Shalini")
  const SHEKHAR := Persona(7, "Shekhar", "Your long-distance boyfriend", "shekharPersona",
                           "shekhar.png", true, "Shekhar is a 23-year-old")
  const RAGHAV := Persona(2, "Raghav", "Your tech enthusiast friend", "raghavPersona",
                          "raghav.png", true, "profile of Raghav")
  const RAHUL := Persona(3, "Rahul", "Your philosophical friend", "rahulPersona",
                         "rahul.png", true, "profile of Rahul")
  const MUSKAN := Persona(4, "Muskan", "Your break-up healer", "muskanPersona",
                          "muskan.png", true, "profile of Muskan")
  const DHEERAJ := Persona(5, "Dheeraj", "Your gossip buddy", "dheerajPerosna",
                           "dheeraj.png", true, "profile of Dheeraj")
  const HRITVIK := Persona(6, "Hritvik", "Your fitness coach", "hritivkPersona",
                           "hritvik.png", true, "profile of Hritvik")

  /** The registry's ids in its declared order. */
  const REGISTRY_IDS: seq<int> := [1, 7, 2, 3, 4, 5, 6]

  /** The registry in its declared order. */
  const PERSONAS: seq<Persona> := [SHALINI, SHEKHAR, RAGHAV, RAHUL, MUSKAN, DHEERAJ, HRITVIK]

  /** No two entries share an id. */
  predicate DistinctIds(ps: seq<Persona>) {
    forall i, j | 0 <= i < j < |ps| :: ps[i].id != ps[j].id
  }

  /** The ids of `ps`, in order. */
  function Ids(ps: seq<Persona>): (ids: seq<int>)
    ensures |ids| == |ps| && forall i | 0 <= i < |ps| :: ids[i] == ps[i].id
  {
    seq(|ps|, i requires 0 <= i < |ps| => ps[i].id)
  }

  /** The shape of the registry that the lookup and the gender filter rely on. */
  lemma RegistryShape()
    ensures |PERSONAS| == 7
    ensures Ids(PERSONAS) == REGISTRY_IDS
    ensures DistinctIds(PERSONAS)
    ensures forall i | 0 <= i < |PERSONAS| :: PERSONAS[i].isOnline && PERSONAS[i].persona != ""
    ensures PERSONAS[0].name == "Shalini" && PERSONAS[0].tagline == "Your long-distance girlfriend"
    ensures PERSONAS[1].name == "Shekhar" && PERSONAS[1].tagline == "Your long-distance boyfriend"
  {
  }

  /**
   * `Array.prototype.find` by loose id equality: the first entry whose id is
   * `id`, or `None` (`undefined`) when there is none.
   */
  function Find(ps: seq<Persona>, id: int): (r: Option<Persona>)
    ensures r.None? <==> forall j | 0 <= j < |ps| :: ps[j].id != id
    ensures r.Some? ==>
      exists k | 0 <= k < |ps| :: ps[k] == r.value && r.value.id == id && forall j | 0 <= j < k :: ps[j].id != id
  {
    if ps == [] then None
    else if ps[0].id == id then Some(ps[0])
    else
      var r := Find(ps[1..], id);
      assert r.Some? ==> exists k | 0 <= k < |ps| :: ps[k] == r.value && r.value.id == id && forall j | 0 <= j < k :: ps[j].id != id by {
        if r.Some? {
          var k :| 0 <= k < |ps| - 1 && ps[1..][k] == r.value && r.value.id == id && forall j | 0 <= j < k :: ps[1..][j].id != id;
          assert ps[k + 1] == r.value;
          assert forall j | 0 <= j < k + 1 :: ps[j].id != id by {
            forall j | 0 <= j < k + 1 ensures ps[j].id != id {
              if j > 0 { assert ps[j] == ps[1..][j - 1]; }
            }
          }
        }
      }
      r
  }

  /** With distinct ids, looking up an entry's id finds that very entry. */
  lemma {:induction false} FindRegistered(ps: seq<Persona>, k: nat)
    requires DistinctIds(ps) && k < |ps|
    ensures Find(ps, ps[k].id) == Some(ps[k])
  {
    if k > 0 {
      assert DistinctIds(ps[1..]);
      FindRegistered(ps[1..], k - 1);
      assert ps[1..][k - 1] == ps[k];
    }
  }

  /** The template sent for `botId`, or `None` when no persona has that id. */
  function PersonaText(botId: int): Option<string> {
    match Find(PERSONAS, botId)
    case Some(p) => Some(p.persona)
    case None => None
  }

  /** Every registry id resolves to that persona's non-empty template. */
  lemma PersonaTextRegistered(k: nat)
    requires k < |PERSONAS|
    ensures PersonaText(PERSONAS[k].id) == Some(PERSONAS[k].persona)
    ensures PERSONAS[k].persona != ""
  {
    RegistryShape();
    FindRegistered(PERSONAS, k);
  }

  /** Exactly the ids 1 to 7 resolve; any other id gives no template and no failure. */
  lemma PersonaTextCases(botId: int)
    ensures PersonaText(botId).Some? <==> 1 <= botId <= 7
  {
    RegistryShape();
    assert forall j | 0 <= j < |PERSONAS| :: PERSONAS[j].id == Ids(PERSONAS)[j];
    if 1 <= botId <= 7 {
      assert PERSONAS[IndexOf(botId)].id == botId;
    }
  }

  /** Where id `id` (1 to 7) sits in the registry. */
  function IndexOf(id: int): (k: nat)
    requires 1 <= id <= 7
    ensures k < 7 && REGISTRY_IDS[k] == id
  {
    if id == 1 then 0 else if id == 7 then 1 else id
  }
}
