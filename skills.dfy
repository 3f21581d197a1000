/** The skill catalogue of `SkillsService`: unique names, an ascending
    listing and a case-insensitive search. */
module Skills {

  import opened Seqs
  import opened Text
  import opened Entities
  import opened Store

  const SkillExists := Conflict("Skill already exists")
  const SkillNotFound := NotFound("Skill not found")

  /** The sort key of `ORDER BY name` under the case-insensitive collation. */
  function FoldedName(k: Skill): string { Lower(k.name) }

  /** The `findOne({ where: { name } })` of `createSkill`: some stored skill
      has the name, up to case. */
  predicate NameTaken(skills: seq<Skill>, name: string) {
    exists k :: k in skills && Lower(k.name) == Lower(name)
  }

  /** `createSkill`: Conflict when the name is taken, in any case; otherwise
      one new skill. */
  function CreateSkill(t: Tables, name: string, newId: string): (s: Step<Skill>)
    ensures NameTaken(t.skills, name) ==> s == Step(Err(SkillExists), t)
    ensures !NameTaken(t.skills, name) ==>
              && s.result == Ok(Skill(newId, name))
              && s.after.skills == t.skills + [s.result.value]
              && s.after.(skills := t.skills) == t
  {
    if NameTaken(t.skills, name) then Step(Err(SkillExists), t)
    else
      var skill := Skill(newId, name);
      Step(Ok(skill), t.(skills := t.skills + [skill]))
  }

  /** `findAllSkills`: every skill, ascending by name, ignoring case. */
  function FindAllSkills(t: Tables): (r: seq<Skill>)
    ensures multiset(r) == multiset(t.skills)
    ensures forall i, j :: 0 <= i < j < |r| ==> LexLe(Lower(r[i].name), Lower(r[j].name))
  {
    var sorted := SortByText(t.skills, FoldedName);
    assert SortedByText(sorted, FoldedName);
    sorted
  }

  /** `findSkillById`: the skill, or NotFound. */
  function FindSkillById(t: Tables, id: string): (r: Result<Skill>)
    ensures r.Ok? ==> r.value in t.skills && r.value.id == id
    ensures r.Err? <==> forall k :: k in t.skills ==> k.id != id
    ensures r.Err? ==> r.error == SkillNotFound
  {
    match FindFirst(t.skills, (k: Skill) => k.id == id)
    case Some(i) => Ok(t.skills[i])
    case None => Err(SkillNotFound)
  }

  /** The tables without skill `id` and (ON DELETE CASCADE) the user-skill
      rows that refer to it. */
  function WithoutSkill(t: Tables, id: string): Tables {
    t.(skills := Filter(t.skills, (k: Skill) => k.id != id),
       userSkills := Filter(t.userSkills, (x: UserSkill) => x.skillId != id))
  }

  /** `deleteSkill`: NotFound for an unknown id; otherwise the skill and the
      user-skill rows that refer to it go. */
  function DeleteSkill(t: Tables, id: string): (s: Step<()>)
    ensures s.result.Err? <==> FindSkillById(t, id).Err?
    ensures s.result.Err? ==> s == Step(Err(SkillNotFound), t)
    ensures s.result.Ok? ==>
              && (forall k :: k in s.after.skills <==> k in t.skills && k.id != id)
              && (forall x :: x in s.after.userSkills <==> x in t.userSkills && x.skillId != id)
              && s.after.(skills := t.skills, userSkills := t.userSkills) == t
  {
    match FindSkillById(t, id)
    case Err(e) => Step(Err(e), t)
    case Ok(_) => Step(Ok(()), WithoutSkill(t, id))
  }

  /** `searchSkills`: the skills whose name contains `query`, ignoring case,
      ascending by name. */
  function SearchSkills(t: Tables, query: string): (r: seq<Skill>)
    ensures forall k :: multiset(r)[k] == if ContainsIgnoreCase(k.name, query) then multiset(t.skills)[k] else 0
    ensures forall i, j :: 0 <= i < j < |r| ==> LexLe(Lower(r[i].name), Lower(r[j].name))
  {
    var sorted := SortByText(Filter(t.skills, (k: Skill) => ContainsIgnoreCase(k.name, query)), FoldedName);
    assert SortedByText(sorted, FoldedName);
    sorted
  }

  /** A search hit is a skill whose lower-cased name has the lower-cased
      query at some position. */
  lemma SearchHitsOccur(t: Tables, query: string, k: Skill)
    requires k in SearchSkills(t, query)
    ensures k in t.skills
    ensures exists i :: OccursAt(Lower(k.name), Lower(query), i)
  {
    assert multiset(SearchSkills(t, query))[k] > 0;
    ContainsIffOccurs(Lower(k.name), Lower(query));
  }

  /** Names stay unique: creation refuses a taken name. */
  lemma CreateSkillConsistent(t: Tables, name: string, newId: string)
    requires Consistent(t)
    requires forall k :: k in t.skills ==> k.id != newId
    ensures Consistent(CreateSkill(t, name, newId).after)
  {
    var s := CreateSkill(t, name, newId);
    if s.result.Ok? {
      UniqueByAppend(t.skills, s.result.value, SkillKey);
      UniqueByAppend(t.skills, s.result.value, SkillName);
    }
  }

  lemma DeleteSkillConsistent(t: Tables, id: string)
    requires Consistent(t)
    ensures Consistent(DeleteSkill(t, id).after)
  {
    UniqueByFilter(t.skills, (k: Skill) => k.id != id, SkillKey);
    UniqueByFilter(t.skills, (k: Skill) => k.id != id, SkillName);
    UniqueByFilter(t.userSkills, (x: UserSkill) => x.skillId != id, UserSkillPair);
  }

  /** Creating a skill twice under the same name, in any case, fails the
      second time. */
  lemma CreateTwiceConflicts(t: Tables, name: string, variant: string, id1: string, id2: string)
    requires CreateSkill(t, name, id1).result.Ok?
    requires Lower(variant) == Lower(name)
    ensures var t1 := CreateSkill(t, name, id1).after;
            CreateSkill(t1, variant, id2) == Step(Err(SkillExists), t1)
  {
    var t1 := CreateSkill(t, name, id1).after;
    assert t1.skills[|t1.skills| - 1] in t1.skills;
  }
}

/** The writing operations of `SkillsService` as a class over the shared
    database; the queries are the `Skills` functions. */
module SkillsService {

  import opened Seqs
  import opened Text
  import opened Entities
  import opened Store
  import Skills

  class SkillsService {
    const db: Database

    constructor (db: Database)
      ensures this.db == db
    {
      this.db := db;
    }

    method CreateSkill(name: string, newId: string) returns (r: Result<Skill>)
      requires db.Valid()
      requires forall k :: k in db.skills ==> k.id != newId
      modifies db
      ensures db.Valid()
      ensures Step(r, db.Snapshot()) == Skills.CreateSkill(old(db.Snapshot()), name, newId)
    {
      Skills.CreateSkillConsistent(db.Snapshot(), name, newId);
      var existing := FindFirst(db.skills, (k: Skill) => Lower(k.name) == Lower(name));
      if existing.Some? {
        return Err(Skills.SkillExists);
      }
      var skill := Skill(newId, name);
      db.skills := db.skills + [skill];
      r := Ok(skill);
    }

    method DeleteSkill(id: string) returns (r: Result<()>)
      requires db.Valid()
      modifies db
      ensures db.Valid()
      ensures Step(r, db.Snapshot()) == Skills.DeleteSkill(old(db.Snapshot()), id)
    {
      Skills.DeleteSkillConsistent(db.Snapshot(), id);
      var _ :- Skills.FindSkillById(db.Snapshot(), id);
      var after := Skills.WithoutSkill(db.Snapshot(), id);
      db.skills, db.userSkills := after.skills, after.userSkills;
      assert db.Snapshot() == after;
      r := Ok(());
    }
  }
}
