/**
 * `CategoryAssignmentUseCase`: a transaction's keywords (its provider, the
 * provider's longer words, its contact, and the tags of the term groups its
 * message mentions) are scored against a fixed pattern table per category
 * name; the first category with the highest positive score wins, with the
 * "Income" category taking every income transaction and "Other" as the
 * fallback.
 *
 * The message body is a parameter: the source reads it from
 * `transaction.originalMessage`, a field `TransactionData` does not have.
 */
module CategoryAssignment {
  import opened Common

  // ------------------------------------------------------------ keywords

  /** A group of terms and the tags added when the text mentions any of them. */
  datatype TermGroup = TermGroup(terms: seq<string>, tags: seq<string>)

  /** The nine term groups of `addKeywordsFromText`, in order. */
  const TermGroups: seq<TermGroup> := [
    TermGroup(["restaurante", "comida", "menu", "almuerzo", "cena", "desayuno", "café", "pizza", "hamburguesa",
               "comidas", "rappi", "ifood", "domicilio", "domicilios", "uber eats", "delivery"],
              ["food", "restaurant"]),
    TermGroup(["taxi", "uber", "didi", "cabify", "transporte", "gasolina", "combustible", "parqueadero",
               "estacionamiento", "peaje", "metro", "transmilenio", "bus", "boleto", "pasaje", "vuelo", "avión"],
              ["transportation", "travel"]),
    TermGroup(["tienda", "compra", "mercado", "super", "supermercado", "mall", "centro comercial", "ropa",
               "calzado", "zapatos", "vestido", "pantalon", "falda", "blusa", "camisa", "amazon", "éxito",
               "carulla", "jumbo", "alkosto", "falabella", "zara"],
              ["shopping"]),
    TermGroup(["película", "cine", "teatro", "concierto", "festival", "entretenimiento", "netflix", "disney",
               "spotify", "apple music", "evento", "boleta", "juego", "videojuego"],
              ["entertainment"]),
    TermGroup(["médico", "doctor", "clínica", "hospital", "eps", "medicina", "farmacia", "droguería",
               "medicamento", "salud", "consulta", "examen", "laboratorio", "terapia"],
              ["health"]),
    TermGroup(["arriendo", "alquiler", "hipoteca", "casa", "apartamento", "servicios", "agua", "luz", "energía",
               "electricidad", "gas", "internet", "telefonía", "mantenimiento", "reparación"],
              ["home", "housing"]),
    TermGroup(["educación", "universidad", "colegio", "escuela", "curso", "matrícula", "clase", "capacitación",
               "libro", "librería", "academia", "taller", "seminario"],
              ["education"]),
    TermGroup(["salón", "belleza", "barbería", "corte", "peinado", "spa", "gimnasio", "gym", "entrenamiento",
               "estética", "maquillaje", "manicure", "pedicure"],
              ["personal", "beauty"]),
    TermGroup(["nómina", "sueldo", "salario", "pago", "honorario", "ingreso", "abono", "depósito",
               "transferencia recibida", "consignación", "recaudo"],
              ["income", "salary"])
  ]

  /** The tags a group adds. */
  function TagSet(g: TermGroup): (r: set<string>)
    ensures forall k :: k in r <==> k in g.tags
  {
    set k | k in g.tags
  }

  /** The tags of the groups, among `groups`, that `text` mentions. */
  function TagsOf(text: string, groups: seq<TermGroup>): (r: set<string>)
    ensures forall k :: k in r <==> exists g :: g in groups && ContainsAny(text, g.terms) && k in g.tags
  {
    if groups == [] then {}
    else
      var g := groups[0];
      assert forall h :: h in groups <==> h == g || h in groups[1..];
      (if ContainsAny(text, g.terms) then TagSet(g) else {}) + TagsOf(text, groups[1..])
  }

  /** The keywords a provider adds: itself lowercased, and its words longer than three characters. */
  function ProviderKeywords(provider: Option<string>): set<string> {
    match provider
    case None => {}
    case Some(p) => {LowerStr(p)} + LongWords(Split(p, ' '))
  }

  /** The words longer than three characters, lowercased. */
  function LongWords(words: seq<string>): set<string> {
    if words == [] then {}
    else
      var last := words[|words| - 1];
      LongWords(words[..|words| - 1]) + (if |last| > 3 then {LowerStr(last)} else {})
  }

  /** The long words are exactly the lowercased words of more than three characters. */
  lemma {:induction false} LongWordsOf(words: seq<string>)
    ensures forall w :: w in words && |w| > 3 ==> LowerStr(w) in LongWords(words)
    ensures forall k :: k in LongWords(words) ==> exists w :: w in words && |w| > 3 && k == LowerStr(w)
  {
    if words != [] {
      var last := words[|words| - 1];
      var init := words[..|words| - 1];
      LongWordsOf(init);
      assert words == init + [last];
      forall w | w in words && |w| > 3 ensures LowerStr(w) in LongWords(words) {
        if w != last {
          assert w in init;
        }
      }
      forall k | k in LongWords(words) ensures exists w :: w in words && |w| > 3 && k == LowerStr(w) {
        if k !in LongWords(init) {
          assert last in words && |last| > 3 && k == LowerStr(last);
        } else {
          var w :| w in init && |w| > 3 && k == LowerStr(w);
          assert w in words;
        }
      }
    }
  }

  /** `extractKeywords`: provider, contact and the tags of the lowercased body. */
  function Keywords(provider: Option<string>, contactName: Option<string>, body: string): set<string> {
    ProviderKeywords(provider)
    + (if contactName.Some? then {LowerStr(contactName.value)} else {})
    + TagsOf(LowerStr(body), TermGroups)
  }

  /** `addKeywordsFromText`: the term groups checked one after the other. */
  method AddKeywordsFromText(text: string, keywords: set<string>) returns (r: set<string>)
    ensures r == keywords + TagsOf(text, TermGroups)
  {
    r := AddTagsOfGroups(text, TermGroups, keywords);
  }

  /** The loop of `addKeywordsFromText`, over any list of term groups. */
  method AddTagsOfGroups(text: string, groups: seq<TermGroup>, keywords: set<string>) returns (r: set<string>)
    ensures r == keywords + TagsOf(text, groups)
  {
    r := keywords;
    var i := 0;
    while i < |groups|
      invariant 0 <= i <= |groups|
      invariant r == keywords + TagsOf(text, groups[..i])
    {
      TagsSnoc(text, groups[..i], groups[i]);
      assert groups[..i + 1] == groups[..i] + [groups[i]];
      if ContainsAny(text, groups[i].terms) {
        r := r + TagSet(groups[i]);
      }
      i := i + 1;
    }
    assert groups[..i] == groups;
  }

  lemma TagsSnoc(text: string, groups: seq<TermGroup>, g: TermGroup)
    ensures TagsOf(text, groups + [g])
         == TagsOf(text, groups) + (if ContainsAny(text, g.terms) then TagSet(g) else {})
  {
    forall k ensures k in TagsOf(text, groups + [g]) <==>
                     k in TagsOf(text, groups) || (ContainsAny(text, g.terms) && k in g.tags) {
      assert forall h :: h in groups + [g] <==> h in groups || h == g;
    }
  }

  /** The provider's keywords: the name lowercased, then each word longer than three characters. */
  method AddProviderKeywords(provider: string, keywords: set<string>) returns (r: set<string>)
    ensures r == keywords + ProviderKeywords(Some(provider))
  {
    var words := Split(provider, ' ');
    var long: set<string> := {};
    var i := 0;
    while i < |words|
      invariant 0 <= i <= |words|
      invariant long == LongWords(words[..i])
    {
      assert words[..i + 1][..i] == words[..i] && words[..i + 1][i] == words[i];
      if |words[i]| > 3 {
        long := long + {LowerStr(words[i])};
      }
      i := i + 1;
    }
    assert words[..i] == words;
    r := keywords + {LowerStr(provider)} + long;
  }

  /** `extractKeywords`, as the source builds the set step by step. */
  method ExtractKeywords(t: Transaction, body: string) returns (keywords: set<string>)
    ensures keywords == Keywords(t.provider, t.contactName, body)
  {
    ghost var fromContact: set<string> := if t.contactName.Some? then {LowerStr(t.contactName.value)} else {};
    ghost var tags := TagsOf(LowerStr(body), TermGroups);
    assert Keywords(t.provider, t.contactName, body) == ProviderKeywords(t.provider) + fromContact + tags;
    keywords := {};
    if t.provider.Some? {
      keywords := AddProviderKeywords(t.provider.value, keywords);
    }
    assert keywords == ProviderKeywords(t.provider);
    var contact := t.contactName;
    if contact.Some? {
      var name := LowerStr(contact.value);
      keywords := keywords + {name};
      assert fromContact == {name};
    } else {
      assert fromContact == {};
    }
    assert keywords == ProviderKeywords(t.provider) + fromContact;
    keywords := AddKeywordsFromText(LowerStr(body), keywords);
  }

  // ------------------------------------------------------------ scoring

  /** `categoryPatterns`: the patterns of each category name the classifier knows. */
  const CategoryPatterns: map<string, set<string>> := map[
    "Groceries" := {"supermercado", "mercado", "éxito", "carulla", "jumbo", "d1", "ara", "justo y bueno", "food",
                    "grocery", "groceries", "super"},
    "Restaurants" := {"restaurant", "restaurante", "comida", "almuerzo", "cena", "comidas", "rappi", "ifood",
                      "domicilio", "domicilios", "uber eats", "delivery", "food"},
    "Transportation" := {"transportation", "transporte", "taxi", "uber", "didi", "cabify", "gasolina",
                         "combustible", "parqueadero", "peaje", "metro", "transmilenio", "bus"},
    "Shopping" := {"shopping", "tienda", "compra", "ropa", "calzado", "zapatos", "mall", "centro comercial",
                   "amazon", "falabella", "zara"},
    "Bills" := {"bill", "servicio", "agua", "luz", "energía", "gas", "internet", "telefonía", "celular",
                "factura", "recibo", "pago"},
    "Entertainment" := {"entertainment", "entretenimiento", "película", "cine", "teatro", "concierto",
                        "festival", "netflix", "disney", "spotify", "evento"},
    "Health" := {"health", "médico", "doctor", "clínica", "hospital", "medicina", "farmacia", "droguería",
                 "medicamento", "salud", "consulta"},
    "Housing" := {"home", "housing", "arriendo", "alquiler", "hipoteca", "casa", "apartamento", "mantenimiento",
                  "reparación"},
    "Income" := {"income", "nómina", "sueldo", "salario", "pago", "honorario", "ingreso", "abono", "depósito",
                 "transferencia recibida", "consignación"},
    "Education" := {"education", "educación", "universidad", "colegio", "escuela", "curso", "matrícula", "clase",
                    "capacitación", "libro"},
    "Personal Care" := {"personal", "beauty", "salón", "belleza", "barbería", "corte", "spa", "gimnasio", "gym",
                        "entrenamiento", "estética"},
    "Other" := {"other", "otro"}
  ]

  /** A keyword matches when it contains some pattern or some pattern contains it. */
  predicate KeywordMatches(keyword: string, patterns: set<string>) {
    exists p :: p in patterns && (Contains(keyword, p) || Contains(p, keyword))
  }

  /** The number of keywords that match; a category outside the table scores nothing. */
  function ScoreOf(c: Category, keywords: set<string>): (r: nat)
    ensures c.name !in CategoryPatterns ==> r == 0
    ensures r <= |keywords|
  {
    if c.name in CategoryPatterns then
      var ps := CategoryPatterns[c.name];
      var matching := set k | k in keywords && KeywordMatches(k, ps);
      assert matching <= keywords;
      CardinalityOfSubset(matching, keywords);
      |matching|
    else 0
  }

  lemma CardinalityOfSubset<T>(a: set<T>, b: set<T>)
    requires a <= b
    ensures |a| <= |b|
  {
    if a != {} {
      var x :| x in a;
      CardinalityOfSubset(a - {x}, b - {x});
    }
  }

  /** The empty keyword, which an empty provider adds, matches every pattern set that is not empty. */
  lemma EmptyKeywordMatchesAll(name: string, keywords: set<string>)
    requires name in CategoryPatterns && "" in keywords
    ensures ScoreOf(Category(None, None, name, 0), keywords) >= 1
  {
    var ps := CategoryPatterns[name];
    var p :| p in ps;
    ContainsEmpty(p);
    var matching := set k | k in keywords && KeywordMatches(k, ps);
    assert "" in matching;
  }

  lemma EmptyProviderAddsEmptyKeyword(contactName: Option<string>, body: string)
    ensures "" in Keywords(Some(""), contactName, body)
  {
  }

  function NamedAs(name: string): Category -> bool {
    (c: Category) => c.name == name
  }

  /** Position `i` holds the first category reaching the highest score, and that score is positive. */
  predicate FirstBest(categories: seq<Category>, keywords: set<string>, i: int) {
    0 <= i < |categories|
    && ScoreOf(categories[i], keywords) > 0
    && (forall j :: 0 <= j < |categories| ==> ScoreOf(categories[j], keywords) <= ScoreOf(categories[i], keywords))
    && (forall j :: 0 <= j < i ==> ScoreOf(categories[j], keywords) < ScoreOf(categories[i], keywords))
  }

  /**
   * What `findMatchingCategory` returns: the "Income" category for income
   * when there is one; else the first best-scoring category; else "Other"
   * (or nothing).
   */
  ghost predicate IsMatch(categories: seq<Category>, keywords: set<string>, isIncome: bool, r: Option<Category>) {
    var income := Find(categories, NamedAs("Income"));
    if isIncome && income.Some? then r == income
    else if exists j :: 0 <= j < |categories| && ScoreOf(categories[j], keywords) > 0 then
      exists i :: FirstBest(categories, keywords, i) && r == Some(categories[i])
    else r == Find(categories, NamedAs("Other"))
  }

  /** At most one position is the first best one. */
  lemma FirstBestUnique(categories: seq<Category>, keywords: set<string>, i: int, k: int)
    requires FirstBest(categories, keywords, i) && FirstBest(categories, keywords, k)
    ensures i == k
  {
  }

  /** The description of the match determines the result. */
  lemma MatchUnique(categories: seq<Category>, keywords: set<string>, isIncome: bool, r1: Option<Category>, r2: Option<Category>)
    requires IsMatch(categories, keywords, isIncome, r1) && IsMatch(categories, keywords, isIncome, r2)
    ensures r1 == r2
  {
    var income := Find(categories, NamedAs("Income"));
    if !(isIncome && income.Some?) && exists j :: 0 <= j < |categories| && ScoreOf(categories[j], keywords) > 0 {
      var i1 :| FirstBest(categories, keywords, i1) && r1 == Some(categories[i1]);
      var i2 :| FirstBest(categories, keywords, i2) && r2 == Some(categories[i2]);
      FirstBestUnique(categories, keywords, i1, i2);
    }
  }

  /** A chosen category is always one of the table's names and one of the given categories. */
  lemma MatchIsListed(categories: seq<Category>, keywords: set<string>, isIncome: bool, r: Option<Category>)
    requires IsMatch(categories, keywords, isIncome, r)
    ensures r.Some? ==> r.value in categories && r.value.name in CategoryPatterns
  {
  }

  /** `findMatchingCategory`: the income shortcut, then the first-wins maximum scan, then "Other". */
  method FindMatchingCategory(categories: seq<Category>, keywords: set<string>, isIncome: bool)
    returns (r: Option<Category>)
    ensures IsMatch(categories, keywords, isIncome, r)
  {
    if isIncome {
      var incomeCategory := Find(categories, NamedAs("Income"));
      if incomeCategory.Some? {
        return incomeCategory;
      }
    }
    var bestMatch: Option<Category> := None;
    var maxMatches := 0;
    ghost var bestIndex := -1;
    var i := 0;
    while i < |categories|
      invariant 0 <= i <= |categories|
      invariant forall j :: 0 <= j < i ==> ScoreOf(categories[j], keywords) <= maxMatches
      invariant maxMatches == 0 ==> bestMatch == None
      invariant maxMatches > 0 ==>
                  0 <= bestIndex < i && bestMatch == Some(categories[bestIndex])
                  && ScoreOf(categories[bestIndex], keywords) == maxMatches
                  && forall j :: 0 <= j < bestIndex ==> ScoreOf(categories[j], keywords) < maxMatches
    {
      var category := categories[i];
      if category.name in CategoryPatterns {
        var matches := ScoreOf(category, keywords);
        if matches > maxMatches {
          maxMatches := matches;
          bestMatch := Some(category);
          bestIndex := i;
        }
      }
      i := i + 1;
    }
    if bestMatch.None? || maxMatches == 0 {
      return Find(categories, NamedAs("Other"));
    }
    assert FirstBest(categories, keywords, bestIndex);
    return bestMatch;
  }

  /** The use case with its cached category list. */
  class CategoryAssigner {
    var categories: seq<Category>

    constructor ()
      ensures categories == []
    {
      categories := [];
    }

    /**
     * `assignCategoryToTransaction`. `stored` is what the category
     * repository returns; it is read only while the cache is empty.
     */
    method AssignCategoryToTransaction(t: Transaction, body: string, stored: seq<Category>)
      returns (r: Option<Category>)
      modifies this
      ensures categories == if old(categories) == [] then stored else old(categories)
      ensures IsMatch(categories, Keywords(t.provider, t.contactName, body), t.isIncome, r)
    {
      if categories == [] {
        categories := stored;
      }
      var keywords := ExtractKeywords(t, body);
      r := FindMatchingCategory(categories, keywords, t.isIncome);
    }
  }
}
