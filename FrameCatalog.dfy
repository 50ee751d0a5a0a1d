/** The built-in frame catalogue: five basic frames, six special (seasonal
    and event) frames, the category groups built from them, and the two
    lookups over them. */
module FrameCatalog {
  import opened Types
  import opened Seqs

  datatype FrameTemplate = FrameTemplate(id: string, name: string, category: string, imagePath: string, frameDescription: Option<string>)

  /** A named group of frames. */
  datatype TemplateCategory = TemplateCategory(id: string, name: string, frames: seq<FrameTemplate>)

  const ClassicWhite := FrameTemplate("basic_1", "클래식 화이트", "basic", "basic/classic_white.png", Some("깔끔하고 심플한 화이트 프레임"))
  const ModernBlack := FrameTemplate("basic_2", "모던 블랙", "basic", "basic/modern_black.png", Some("세련된 블랙 프레임"))
  const WoodGrain := FrameTemplate("basic_3", "우드 그레인", "basic", "basic/wood_grain.png", Some("자연스러운 나무 질감 프레임"))
  const MinimalGray := FrameTemplate("basic_4", "미니멀 그레이", "basic", "basic/minimal_gray.png", Some("미니멀한 그레이 프레임"))
  const ElegantGold := FrameTemplate("basic_5", "엘레간트 골드", "basic", "basic/elegant_gold.png", Some("고급스러운 골드 프레임"))

  const BasicFrames: seq<FrameTemplate> := [ClassicWhite, ModernBlack, WoodGrain, MinimalGray, ElegantGold]

  const ChristmasTree := FrameTemplate("special_christmas_1", "크리스마스 트리", "christmas", "special/christmas_tree.png", Some("크리스마스 트리 모양의 특별한 프레임"))
  const ChristmasSnow := FrameTemplate("special_christmas_2", "크리스마스 스노우", "christmas", "special/christmas_snow.png", Some("눈송이가 날리는 크리스마스 프레임"))
  const EasterEggs := FrameTemplate("special_easter_1", "부활절 달걀", "easter", "special/easter_eggs.png", Some("부활절 달걀과 꽃이 있는 프레임"))
  const SummerOcean := FrameTemplate("special_summer_1", "여름 바다", "summer", "special/summer_ocean.png", Some("파도와 조개가 있는 여름 프레임"))
  const AutumnLeaves := FrameTemplate("special_autumn_1", "가을 단풍", "autumn", "special/autumn_leaves.png", Some("단풍잎이 떨어지는 가을 프레임"))
  const WeddingRomantic := FrameTemplate("special_wedding_1", "웨딩 로맨틱", "wedding", "special/wedding_romantic.png", Some("로맨틱한 웨딩 프레임"))

  const SpecialFrames: seq<FrameTemplate> := [ChristmasTree, ChristmasSnow, EasterEggs, SummerOcean, AutumnLeaves, WeddingRomantic]

  function InCategory(category: string): FrameTemplate -> bool {
    (f: FrameTemplate) => f.category == category
  }

  const CategoryIds: seq<string> := ["basic", "christmas", "easter", "summer", "autumn", "wedding"]
  const CategoryNames: seq<string> := ["기본 프레임", "크리스마스", "부활절", "여름", "가을", "웨딩"]

  /** `frameCategories[k]`: the basic group holds the basic list, each other
      group the special frames of its category, in list order. */
  function CategoryGroup(k: nat): (c: TemplateCategory)
    requires k < |CategoryIds|
    ensures c.id == CategoryIds[k] && c.name == CategoryNames[k]
    ensures k == 0 ==> c.frames == BasicFrames
    ensures k > 0 ==> c.frames == Filter(SpecialFrames, InCategory(CategoryIds[k]))
  {
    if k == 0 then TemplateCategory(CategoryIds[0], CategoryNames[0], BasicFrames)
    else TemplateCategory(CategoryIds[k], CategoryNames[k], Filter(SpecialFrames, InCategory(CategoryIds[k])))
  }

  const FrameCategories: seq<TemplateCategory> := [CategoryGroup(0), CategoryGroup(1), CategoryGroup(2), CategoryGroup(3), CategoryGroup(4), CategoryGroup(5)]

  /** The groups in order, with their ids. */
  lemma FrameCategoriesAreGroups()
    ensures |FrameCategories| == |CategoryIds|
    ensures forall k :: 0 <= k < |CategoryIds| ==> FrameCategories[k] == CategoryGroup(k)
  {
  }

  /** `getFramesByType`: the basic list for `'basic'`, the special list for
      anything else. */
  function GetFramesByType(frameType: string): (frames: seq<FrameTemplate>)
    ensures frameType == "basic" ==> frames == BasicFrames
    ensures frameType != "basic" ==> frames == SpecialFrames
  {
    if frameType == "basic" then BasicFrames else SpecialFrames
  }

  /** A frame of the type lookup is a basic frame exactly when the basic type
      was asked for. */
  lemma FramesByTypeMatchCategory(frameType: string)
    ensures forall i :: 0 <= i < |GetFramesByType(frameType)| ==>
      (GetFramesByType(frameType)[i].category == "basic" <==> frameType == "basic")
  {
  }

  /** No two groups share an id. */
  lemma GroupIdsDistinct()
    ensures forall i, j :: 0 <= i < j < |CategoryIds| ==> CategoryIds[i] != CategoryIds[j]
  {
  }

  /** `getFramesByCategory`: the frames of the group with that id, or none
      for an unknown id (a group's array is never falsy). */
  function GetFramesByCategory(category: string): (frames: seq<FrameTemplate>)
    ensures forall k :: 0 <= k < |CategoryIds| && CategoryIds[k] == category ==> frames == CategoryGroup(k).frames
    ensures category !in CategoryIds ==> frames == []
  {
    FrameCategoriesAreGroups();
    GroupIdsDistinct();
    var j := FindIndex(FrameCategories, (c: TemplateCategory) => c.id == category);
    if j >= 0 then FrameCategories[j].frames else []
  }

  /** Every basic frame is of the basic category. */
  lemma BasicFramesAreBasic()
    ensures forall i :: 0 <= i < |BasicFrames| ==> BasicFrames[i].category == "basic"
  {
  }

  /** Every special frame's category names one of the special groups. */
  lemma SpecialCategoriesHaveGroups()
    ensures forall i :: 0 <= i < |SpecialFrames| ==> SpecialFrames[i].category in CategoryIds[1..]
  {
  }

  /** The lookup by category gives frames of that category only. */
  lemma FramesByCategoryAreOfThatCategory(category: string)
    ensures forall i :: 0 <= i < |GetFramesByCategory(category)| ==> GetFramesByCategory(category)[i].category == category
  {
    if category in CategoryIds {
      var k :| 0 <= k < |CategoryIds| && CategoryIds[k] == category;
      var frames := GetFramesByCategory(category);
      assert frames == CategoryGroup(k).frames;
      if k == 0 {
        BasicFramesAreBasic();
      } else {
        var kept := Filter(SpecialFrames, InCategory(category));
        assert frames == kept;
        forall i | 0 <= i < |kept| ensures kept[i].category == category {
          assert InCategory(category)(kept[i]);
        }
      }
    }
  }

  /** Each special group is the order-preserving selection of the special
      frames of its category. */
  lemma SpecialGroupsAreFilters(k: nat)
    requires 1 <= k < |FrameCategories|
    ensures FrameCategories[k].frames == Filter(SpecialFrames, InCategory(FrameCategories[k].id))
    ensures IsSubsequence(FrameCategories[k].frames, SpecialFrames)
  {
    FrameCategoriesAreGroups();
    FilterIsSubsequence(SpecialFrames, InCategory(CategoryIds[k]));
  }

  /** The groups a frame appears in. */
  function GroupsOf(f: FrameTemplate): set<int> {
    set j: nat | j < |CategoryIds| && f in CategoryGroup(j).frames
  }

  /** A special frame is in a group exactly when the group is its
      category's. */
  lemma SpecialFrameInGroup(f: FrameTemplate, k: nat)
    requires f in SpecialFrames && k < |CategoryIds|
    ensures f in CategoryGroup(k).frames <==> CategoryIds[k] == f.category
  {
    if k == 0 {
      BasicFramesAreBasic();
      SpecialCategoriesHaveGroups();
    } else {
      FilterMembership(SpecialFrames, InCategory(CategoryIds[k]), f);
    }
  }

  /** Every special frame is in exactly one group: the one of its
      category. */
  lemma EverySpecialFrameInOneGroup(i: nat)
    requires i < |SpecialFrames|
    ensures exists k :: 1 <= k < |CategoryIds| && GroupsOf(SpecialFrames[i]) == {k} && CategoryIds[k] == SpecialFrames[i].category
  {
    var f := SpecialFrames[i];
    SpecialCategoriesHaveGroups();
    GroupIdsDistinct();
    var m :| 0 <= m < |CategoryIds[1..]| && CategoryIds[1..][m] == f.category;
    var k := m + 1;
    forall j: nat | j < |CategoryIds| ensures f in CategoryGroup(j).frames <==> j == k {
      SpecialFrameInGroup(f, j);
    }
    assert GroupsOf(f) == {k};
  }

  predicate DistinctIds(frames: seq<FrameTemplate>) {
    forall i, j :: 0 <= i < j < |frames| ==> frames[i].id != frames[j].id
  }

  /** No id is used twice across the two lists. */
  lemma FrameIdsUnique()
    ensures DistinctIds(BasicFrames + SpecialFrames)
  {
  }
}
