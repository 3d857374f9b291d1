// The resource centre (Resources): a constant list of six articles, the
// category tabs that filter it, and the featured selection.

module Resources {

  datatype Resource = Resource(
    id: int, title: string, description: string, category: string,
    kind: string, readTime: string, author: string, url: string, featured: bool)

  /** The tab ids; `"all"` shows everything. */
  const CategoryIds: seq<string> := ["all", "anxiety", "sleep", "digital", "social", "time"]

  const ResourceList: seq<Resource> := [
    Resource(1, "Técnicas de Respiración para la Ansiedad",
      "Aprende métodos científicamente probados para reducir la ansiedad mediante ejercicios de respiración.",
      "anxiety", "Artículo", "5 min", "Dr. Ana García", "#", true),
    Resource(2, "Higiene del Sueño Digital",
      "Cómo los dispositivos afectan tu descanso y qué hacer para mejorar la calidad del sueño.",
      "sleep", "Guía", "8 min", "Dr. Carlos Mendoza", "#", true),
    Resource(3, "Desintoxicación Digital: Primeros Pasos",
      "Una guía práctica para reducir el tiempo de pantalla y crear hábitos digitales saludables.",
      "digital", "Guía", "12 min", "Lic. María López", "#", false),
    Resource(4, "Redes Sociales y Autoestima",
      "Entendiendo el impacto psicológico de las redes sociales y cómo proteger tu bienestar mental.",
      "social", "Artículo", "7 min", "Psic. Roberto Silva", "#", false),
    Resource(5, "Técnica Pomodoro para el Bienestar",
      "Cómo usar la gestión del tiempo para reducir el estrés y mejorar la productividad.",
      "time", "Tutorial", "10 min", "Coach Elena Ruiz", "#", false),
    Resource(6, "Mindfulness en la Era Digital",
      "Ejercicios de atención plena diseñados específicamente para usuarios de tecnología.",
      "digital", "Ejercicios", "15 min", "Dr. Miguel Torres", "#", true)
  ]

  /** `filter(resource => resource.category === category)`. */
  function OfCategory(rs: seq<Resource>, category: string): (r: seq<Resource>)
    ensures |r| <= |rs|
  {
    if rs == [] then []
    else (if rs[0].category == category then [rs[0]] else []) + OfCategory(rs[1..], category)
  }

  /** The filter keeps exactly the entries of that category. */
  lemma {:induction false} OfCategoryMembers(rs: seq<Resource>, category: string, x: Resource)
    ensures x in OfCategory(rs, category) <==> x in rs && x.category == category
    decreases |rs|
  {
    if rs != [] {
      OfCategoryMembers(rs[1..], category, x);
      assert rs == [rs[0]] + rs[1..];
    }
  }

  /** The filter keeps the order of the list: filtering a concatenation
      concatenates the filtered parts. */
  lemma {:induction false} OfCategoryAppend(a: seq<Resource>, b: seq<Resource>, category: string)
    ensures OfCategory(a + b, category) == OfCategory(a, category) + OfCategory(b, category)
    decreases |a|
  {
    if a == [] {
      assert a + b == b;
    } else {
      var head := if a[0].category == category then [a[0]] else [];
      assert (a + b)[0] == a[0] && (a + b)[1..] == a[1..] + b;
      assert OfCategory(a + b, category) == head + OfCategory(a[1..] + b, category);
      OfCategoryAppend(a[1..], b, category);
      assert head + (OfCategory(a[1..], category) + OfCategory(b, category))
          == (head + OfCategory(a[1..], category)) + OfCategory(b, category);
    }
  }

  /** `filteredResources` for the selected tab. */
  function FilteredResources(selectedCategory: string): (r: seq<Resource>)
    ensures selectedCategory == "all" ==> r == ResourceList
    ensures selectedCategory != "all" ==> r == OfCategory(ResourceList, selectedCategory)
    ensures |r| <= 6
  {
    if selectedCategory == "all" then ResourceList else OfCategory(ResourceList, selectedCategory)
  }

  /** `filter(resource => resource.featured)`. */
  function Featured(rs: seq<Resource>): (r: seq<Resource>)
    ensures |r| <= |rs|
  {
    if rs == [] then []
    else (if rs[0].featured then [rs[0]] else []) + Featured(rs[1..])
  }

  /** The featured selection keeps exactly the featured entries. */
  lemma {:induction false} FeaturedMembers(rs: seq<Resource>, x: Resource)
    ensures x in Featured(rs) <==> x in rs && x.featured
    decreases |rs|
  {
    if rs != [] {
      FeaturedMembers(rs[1..], x);
      assert rs == [rs[0]] + rs[1..];
    }
  }

  function Ids(rs: seq<Resource>): (r: seq<int>)
    ensures |r| == |rs| && forall k :: 0 <= k < |rs| ==> r[k] == rs[k].id
  {
    if rs == [] then [] else [rs[0].id] + Ids(rs[1..])
  }

  /** The category of each position of the list. */
  const Categories: seq<string> := ["anxiety", "sleep", "digital", "social", "time", "digital"]

  /** The facts the tab lemmas need about a list: six entries with ids 1 to
      6, the categories above, and the featured flags on 1, 2 and 6. */
  predicate HasKeys(rs: seq<Resource>)
  {
    |rs| == 6
    && (forall k :: 0 <= k < 6 ==> rs[k].id == k + 1 && rs[k].category == Categories[k])
    && (forall k :: 0 <= k < 6 ==> rs[k].featured == (k == 0 || k == 1 || k == 5))
  }

  lemma ListKeys()
    ensures HasKeys(ResourceList)
  {
  }

  /** Three resources are featured, ids 1, 2 and 6 in that order. */
  lemma FeaturedIds()
    ensures Ids(Featured(ResourceList)) == [1, 2, 6]
  {
    ListKeys();
    FeaturedOfKeys(ResourceList);
  }

  lemma FeaturedCons(x: Resource, t: seq<Resource>)
    ensures Featured([x] + t) == (if x.featured then [x] else []) + Featured(t)
  {
    assert ([x] + t)[1..] == t;
  }

  lemma FeaturedOfKeys(rs: seq<Resource>)
    requires HasKeys(rs)
    ensures Ids(Featured(rs)) == [1, 2, 6]
  {
    var t5 := [rs[5]];
    var t4 := [rs[4]] + t5;
    var t3 := [rs[3]] + t4;
    var t2 := [rs[2]] + t3;
    var t1 := [rs[1]] + t2;
    assert rs == [rs[0]] + t1;
    FeaturedCons(rs[5], []);
    assert t5 == [rs[5]] + [];
    FeaturedCons(rs[4], t5);
    FeaturedCons(rs[3], t4);
    FeaturedCons(rs[2], t3);
    FeaturedCons(rs[1], t2);
    FeaturedCons(rs[0], t1);
    assert Featured(rs) == [rs[0], rs[1], rs[5]];
  }

  /** The part of one entry that a category filter keeps. */
  function Keep(x: Resource, category: string): (r: seq<Resource>)
    ensures Ids(r) == if x.category == category then [x.id] else []
  {
    if x.category == category then [x] else []
  }

  lemma OfCategoryCons(x: Resource, t: seq<Resource>, category: string)
    ensures OfCategory([x] + t, category) == Keep(x, category) + OfCategory(t, category)
  {
    assert ([x] + t)[1..] == t;
  }

  lemma {:induction false} IdsAppend(a: seq<Resource>, b: seq<Resource>)
    ensures Ids(a + b) == Ids(a) + Ids(b)
  {
  }

  /** The ids a tab shows, in list order: the position `k` of the list
      holds id `k + 1` of category `Categories[k]`. */
  function TabIds(category: string): seq<int>
  {
    if category == "all" then [1, 2, 3, 4, 5, 6]
    else
      IdIf(category, 0) + (IdIf(category, 1) + (IdIf(category, 2)
      + (IdIf(category, 3) + (IdIf(category, 4) + IdIf(category, 5)))))
  }

  function IdIf(category: string, k: nat): seq<int>
    requires k < 6
  {
    if Categories[k] == category then [k + 1] else []
  }

  /** The entry ids of a list with the keys above, for one category. */
  lemma OfCategoryOfKeys(rs: seq<Resource>, category: string)
    requires HasKeys(rs) && category != "all"
    ensures Ids(OfCategory(rs, category)) == TabIds(category)
  {
    OfCategorySix(rs, category);
    IdsOfKeeps(rs, category);
  }

  /** The filter over a list of six, unrolled. */
  lemma OfCategorySix(rs: seq<Resource>, category: string)
    requires |rs| == 6
    ensures OfCategory(rs, category) == Keep(rs[0], category) + (Keep(rs[1], category)
              + (Keep(rs[2], category) + (Keep(rs[3], category)
              + (Keep(rs[4], category) + Keep(rs[5], category)))))
  {
    var t5 := [rs[5]];
    var t4 := [rs[4]] + t5;
    var t3 := [rs[3]] + t4;
    var t2 := [rs[2]] + t3;
    var t1 := [rs[1]] + t2;
    assert rs == [rs[0]] + t1;
    OfCategoryCons(rs[5], [], category);
    assert t5 == [rs[5]] + [];
    OfCategoryCons(rs[4], t5, category);
    OfCategoryCons(rs[3], t4, category);
    OfCategoryCons(rs[2], t3, category);
    OfCategoryCons(rs[1], t2, category);
    OfCategoryCons(rs[0], t1, category);
  }

  lemma IdsOfKeeps(rs: seq<Resource>, category: string)
    requires HasKeys(rs)
    ensures Ids(Keep(rs[0], category) + (Keep(rs[1], category)
              + (Keep(rs[2], category) + (Keep(rs[3], category)
              + (Keep(rs[4], category) + Keep(rs[5], category))))))
         == IdIf(category, 0) + (IdIf(category, 1) + (IdIf(category, 2)
              + (IdIf(category, 3) + (IdIf(category, 4) + IdIf(category, 5)))))
  {
    var k0, k1, k2 := Keep(rs[0], category), Keep(rs[1], category), Keep(rs[2], category);
    var k3, k4, k5 := Keep(rs[3], category), Keep(rs[4], category), Keep(rs[5], category);
    IdsAppend(k4, k5);
    IdsAppend(k3, k4 + k5);
    IdsAppend(k2, k3 + (k4 + k5));
    IdsAppend(k1, k2 + (k3 + (k4 + k5)));
    IdsAppend(k0, k1 + (k2 + (k3 + (k4 + k5))));
    forall k | 0 <= k < 6 ensures Ids(Keep(rs[k], category)) == IdIf(category, k) {
      assert rs[k].id == k + 1 && rs[k].category == Categories[k];
    }
  }

  /** What one tab shows. */
  lemma TabOf(category: string)
    ensures Ids(FilteredResources(category)) == TabIds(category)
  {
    if category != "all" {
      ListKeys();
      OfCategoryOfKeys(ResourceList, category);
    }
  }

  /** Each tab's contents, in list order: anxiety → [1], sleep → [2],
      digital → [3, 6], social → [4], time → [5]; any id that is not a
      resource category gives nothing. */
  lemma TabContents(other: string)
    requires other !in CategoryIds
    ensures Ids(FilteredResources("all")) == [1, 2, 3, 4, 5, 6]
    ensures Ids(FilteredResources("anxiety")) == [1]
    ensures Ids(FilteredResources("sleep")) == [2]
    ensures Ids(FilteredResources("digital")) == [3, 6]
    ensures Ids(FilteredResources("social")) == [4]
    ensures Ids(FilteredResources("time")) == [5]
    ensures FilteredResources(other) == []
  {
    TabOf("all");
    TabOf("anxiety");
    TabOf("sleep");
    TabOf("digital");
    TabOf("social");
    TabOf("time");
    TabOf(other);
    assert |Ids(FilteredResources(other))| == 0;
  }

  /** Every resource belongs to one of the five tabs other than `"all"`. */
  lemma CategoriesKnown()
    ensures forall x :: x in ResourceList ==> x.category in CategoryIds[1..]
  {
  }
}
