/** Normalisation of raw content records into the tagged union of portfolio items
    (src/core/factories/PortfolioItemFactory.ts). */
module PortfolioItemFactory {
  import opened Optional

  /** The three item shapes of IComponent.ts. The constructor plays the role of the
      `type` discriminant, so an item cannot carry a tag that disagrees with its shape. */
  datatype PortfolioItem =
    | Project(id: string, title: string, description: string,
              technologies: seq<string>,
              imageUrl: Option<string>, demoUrl: Option<string>, githubUrl: Option<string>,
              featured: bool)
    | Skill(id: string, title: string, description: string,
            category: string, level: int, icon: Option<string>)
    | Experience(id: string, title: string, description: string,
                 company: string, position: string, startDate: string, endDate: Option<string>,
                 achievements: seq<string>)

  /** The discriminant string of an item. */
  function TypeName(item: PortfolioItem): string {
    match item
    case Project(_, _, _, _, _, _, _, _) => "project"
    case Skill(_, _, _, _, _, _) => "skill"
    case Experience(_, _, _, _, _, _, _, _) => "experience"
  }

  predicate IsItemType(tag: string) {
    tag == "project" || tag == "skill" || tag == "experience"
  }

  /** What the factory promises of every item it builds: a skill level in [0, 100]. */
  predicate WellFormed(item: PortfolioItem) {
    item.Skill? ==> 0 <= item.level <= 100
  }

  /** Raw input records: the item shapes without the discriminant. Fields the factory
      defaults are optional; `tag` is a `type` field a caller may still have left in the
      record, which the spread copies and the stamp then overrides. */
  datatype ProjectData = ProjectData(id: string, title: string, description: string,
                                     technologies: Option<seq<string>>,
                                     imageUrl: Option<string>, demoUrl: Option<string>,
                                     githubUrl: Option<string>,
                                     featured: Option<bool>, tag: Option<string>)

  datatype SkillData = SkillData(id: string, title: string, description: string,
                                 category: string, level: int, icon: Option<string>,
                                 tag: Option<string>)

  datatype ExperienceData = ExperienceData(id: string, title: string, description: string,
                                           company: string, position: string,
                                           startDate: string, endDate: Option<string>,
                                           achievements: Option<seq<string>>, tag: Option<string>)

  datatype ItemData =
    | ProjectRecord(project: ProjectData)
    | SkillRecord(skill: SkillData)
    | ExperienceRecord(experience: ExperienceData)

  datatype FactoryError = UnknownItemType(tag: string) {
    function Message(): string {
      "Unknown portfolio item type: " + tag
    }
  }

  function Min(a: int, b: int): int { if a <= b then a else b }
  function Max(a: int, b: int): int { if a >= b then a else b }

  function CreateProject(d: ProjectData): (r: PortfolioItem)
    ensures r.Project? && TypeName(r) == "project"
    ensures r.featured <==> d.featured == Some(true)
    ensures d.technologies.Some? ==> r.technologies == d.technologies.value
    ensures d.technologies.None? ==> r.technologies == []
    ensures r.id == d.id && r.title == d.title && r.description == d.description
    ensures r.imageUrl == d.imageUrl && r.demoUrl == d.demoUrl && r.githubUrl == d.githubUrl
  {
    Project(d.id, d.title, d.description,
            d.technologies.GetOr([]),
            d.imageUrl, d.demoUrl, d.githubUrl,
            d.featured.GetOr(false))
  }

  function CreateSkill(d: SkillData): (r: PortfolioItem)
    ensures r.Skill? && TypeName(r) == "skill"
    ensures 0 <= r.level <= 100
    ensures 0 <= d.level <= 100 ==> r.level == d.level
    ensures d.level > 100 ==> r.level == 100
    ensures d.level < 0 ==> r.level == 0
    ensures r.id == d.id && r.title == d.title && r.description == d.description
    ensures r.category == d.category && r.icon == d.icon
  {
    Skill(d.id, d.title, d.description, d.category, Min(100, Max(0, d.level)), d.icon)
  }

  function CreateExperience(d: ExperienceData): (r: PortfolioItem)
    ensures r.Experience? && TypeName(r) == "experience"
    ensures d.achievements.Some? ==> r.achievements == d.achievements.value
    ensures d.achievements.None? ==> r.achievements == []
    ensures r.id == d.id && r.title == d.title && r.description == d.description
    ensures r.company == d.company && r.position == d.position
    ensures r.startDate == d.startDate && r.endDate == d.endDate
  {
    Experience(d.id, d.title, d.description, d.company, d.position,
               d.startDate, d.endDate, d.achievements.GetOr([]))
  }

  /** The typed overloads of `createItem` demand a record of the shape the tag names. */
  predicate Fits(tag: string, data: ItemData) {
    && (tag == "project" ==> data.ProjectRecord?)
    && (tag == "skill" ==> data.SkillRecord?)
    && (tag == "experience" ==> data.ExperienceRecord?)
  }

  function CreateItem(tag: string, data: ItemData): (r: Result<PortfolioItem, FactoryError>)
    requires Fits(tag, data)
    ensures r.Ok? <==> IsItemType(tag)
    ensures r.Ok? ==> TypeName(r.value) == tag && WellFormed(r.value)
    ensures r.Err? ==> r.error == UnknownItemType(tag)
    ensures tag == "project" ==> r == Ok(CreateProject(data.project))
    ensures tag == "skill" ==> r == Ok(CreateSkill(data.skill))
    ensures tag == "experience" ==> r == Ok(CreateExperience(data.experience))
  {
    if tag == "project" then Ok(CreateProject(data.project))
    else if tag == "skill" then Ok(CreateSkill(data.skill))
    else if tag == "experience" then Ok(CreateExperience(data.experience))
    else Err(UnknownItemType(tag))
  }

  /** Builds one item per record with the same tag, in record order. The first failing record
      aborts the whole batch, so no partial list is ever returned. */
  method CreateMultiple(tag: string, records: seq<ItemData>)
    returns (r: Result<seq<PortfolioItem>, FactoryError>)
    requires forall i :: 0 <= i < |records| ==> Fits(tag, records[i])
    ensures r.Ok? <==> (|records| == 0 || IsItemType(tag))
    ensures r.Err? ==> r.error == UnknownItemType(tag)
    ensures r.Ok? ==> |r.value| == |records|
    ensures r.Ok? ==> forall i :: 0 <= i < |records| ==> CreateItem(tag, records[i]) == Ok(r.value[i])
  {
    var items: seq<PortfolioItem> := [];
    for i := 0 to |records|
      invariant |items| == i
      invariant 0 < i ==> IsItemType(tag)
      invariant forall k :: 0 <= k < i ==> CreateItem(tag, records[k]) == Ok(items[k])
    {
      var item := CreateItem(tag, records[i]);
      if item.Err? {
        return Err(item.error);
      }
      items := items + [item.value];
    }
    return Ok(items);
  }

  /** The raw record an item would be rebuilt from: every defaulted field supplied. */
  function DataOf(item: PortfolioItem): (d: ItemData)
    ensures Fits(TypeName(item), d)
  {
    match item
    case Project(id, title, description, technologies, imageUrl, demoUrl, githubUrl, featured) =>
      ProjectRecord(ProjectData(id, title, description, Some(technologies),
                                imageUrl, demoUrl, githubUrl, Some(featured), None))
    case Skill(id, title, description, category, level, icon) =>
      SkillRecord(SkillData(id, title, description, category, level, icon, None))
    case Experience(id, title, description, company, position, startDate, endDate, achievements) =>
      ExperienceRecord(ExperienceData(id, title, description, company, position,
                                      startDate, endDate, Some(achievements), None))
  }

  /** An item survives a round trip through the factory exactly when it is well formed:
      the factory is the identity on what it can produce. */
  lemma RoundTrip(item: PortfolioItem)
    ensures CreateItem(TypeName(item), DataOf(item)) == Ok(item) <==> WellFormed(item)
  {
  }

  /** Normalising an already normalised item changes nothing. */
  lemma Idempotent(tag: string, data: ItemData)
    requires Fits(tag, data)
    ensures CreateItem(tag, data).Ok? ==>
      CreateItem(tag, DataOf(CreateItem(tag, data).value)) == CreateItem(tag, data)
  {
  }

  /** A `type` field left in the input never reaches the output: the stamp comes after the spread. */
  lemma StampOverridesType(tag: string, data: ItemData, stray: Option<string>)
    requires Fits(tag, data)
    ensures data.ProjectRecord? ==>
      CreateItem(tag, ProjectRecord(data.project.(tag := stray))) == CreateItem(tag, data)
    ensures data.SkillRecord? ==>
      CreateItem(tag, SkillRecord(data.skill.(tag := stray))) == CreateItem(tag, data)
    ensures data.ExperienceRecord? ==>
      CreateItem(tag, ExperienceRecord(data.experience.(tag := stray))) == CreateItem(tag, data)
  {
  }
}
