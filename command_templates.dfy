/**
 * The query templates and their descriptions. Only the key set of `templates`
 * is modelled: the query texts of some templates embed dates computed from
 * the wall clock.
 */
module CommandTemplates {

  /** The category and template names of `templates`. */
  const Templates: map<string, set<string>> := map[
    "opportunities" := {"byStage", "topByAmount"},
    "accounts" := {"noActivity", "topByRevenue"},
    "leads" := {"recentlyCreated", "byStatus"},
    "cases" := {"openByPriority", "avgResolutionTime"},
    "kpis" := {"winRate", "quarterlyRevenue", "quarterComparison"}
  ]

  /** The two-level description table of `getTemplateDescription`. */
  const Descriptions: map<string, map<string, string>> := map[
    "opportunities" := map[
      "byStage" := "Shows a breakdown of open opportunities by stage",
      "topByAmount" := "Lists the top 5 open opportunities by amount"
    ],
    "accounts" := map[
      "noActivity" := "Shows accounts with no activity in the last 30 days",
      "topByRevenue" := "Lists the top 5 accounts by annual revenue"
    ],
    "leads" := map[
      "recentlyCreated" := "Shows leads created in the last 7 days",
      "byStatus" := "Shows a breakdown of leads by status"
    ],
    "cases" := map[
      "openByPriority" := "Shows open cases grouped by priority",
      "avgResolutionTime" := "Calculates the average case resolution time"
    ],
    "kpis" := map[
      "winRate" := "Calculates the opportunity win rate for the current month",
      "quarterlyRevenue" := "Shows total revenue for the current quarter",
      "quarterComparison" := "Compares revenue between current and previous quarter"
    ]
  ]

  const Fallback := "No description available"

  /** The pair names an entry the table itself holds. */
  predicate Described(category: string, template: string) {
    category in Descriptions && template in Descriptions[category]
  }

  /**
   * `descriptions[category]?.[template] || 'No description available'`, looking
   * at the table's own entries only (see DescriptionAsWritten for the lookup the
   * source performs).
   */
  function GetTemplateDescription(category: string, template: string): (r: string)
    ensures r != ""
    ensures Described(category, template) && Descriptions[category][template] != "" ==>
              r == Descriptions[category][template]
    ensures !Described(category, template) ==> r == Fallback
  {
    if Described(category, template) && Descriptions[category][template] != "" then
      Descriptions[category][template]
    else
      Fallback
  }

  /** Each of the eleven known pairs has its fixed description. */
  lemma KnownDescriptions()
    ensures GetTemplateDescription("opportunities", "byStage") == "Shows a breakdown of open opportunities by stage"
    ensures GetTemplateDescription("opportunities", "topByAmount") == "Lists the top 5 open opportunities by amount"
    ensures GetTemplateDescription("accounts", "noActivity") == "Shows accounts with no activity in the last 30 days"
    ensures GetTemplateDescription("accounts", "topByRevenue") == "Lists the top 5 accounts by annual revenue"
    ensures GetTemplateDescription("leads", "recentlyCreated") == "Shows leads created in the last 7 days"
    ensures GetTemplateDescription("leads", "byStatus") == "Shows a breakdown of leads by status"
    ensures GetTemplateDescription("cases", "openByPriority") == "Shows open cases grouped by priority"
    ensures GetTemplateDescription("cases", "avgResolutionTime") == "Calculates the average case resolution time"
    ensures GetTemplateDescription("kpis", "winRate") == "Calculates the opportunity win rate for the current month"
    ensures GetTemplateDescription("kpis", "quarterlyRevenue") == "Shows total revenue for the current quarter"
    ensures GetTemplateDescription("kpis", "quarterComparison") == "Compares revenue between current and previous quarter"
  {
  }

  /** Every description in the table differs from the fallback text. */
  lemma NoDescriptionIsFallback(category: string, template: string)
    requires Described(category, template)
    ensures Descriptions[category][template] != "" && Descriptions[category][template] != Fallback
  {
  }

  /**
   * The templates and the descriptions cover the same pairs: a pair is a
   * template exactly when its description is not the fallback.
   */
  lemma TemplatesAreDescribed(category: string, template: string)
    ensures category in Templates && template in Templates[category]
        <==> GetTemplateDescription(category, template) != Fallback
  {
    if Described(category, template) {
      NoDescriptionIsFallback(category, template);
    }
  }

  // ---- The lookup as the source writes it ----

  /** The members every plain JavaScript object inherits from `Object.prototype`. */
  const ObjectPrototypeMembers: set<string> := {
    "constructor", "hasOwnProperty", "isPrototypeOf", "propertyIsEnumerable",
    "toLocaleString", "toString", "valueOf", "__proto__",
    "__defineGetter__", "__defineSetter__", "__lookupGetter__", "__lookupSetter__"
  }

  /**
   * Every string-keyed property that a value reached through an inherited
   * member can carry: the members of `Object.prototype` itself (reached through
   * "__proto__"), the own and inherited properties of a built-in function, and
   * the static methods of the `Object` constructor (reached through "constructor").
   */
  const BuiltinMemberNames: set<string> := ObjectPrototypeMembers + {
    "length", "name", "prototype", "apply", "bind", "call", "arguments", "caller",
    "assign", "create", "defineProperty", "defineProperties", "entries", "freeze",
    "fromEntries", "getOwnPropertyDescriptor", "getOwnPropertyDescriptors",
    "getOwnPropertyNames", "getOwnPropertySymbols", "getPrototypeOf", "groupBy",
    "hasOwn", "is", "isExtensible", "isFrozen", "isSealed", "keys",
    "preventExtensions", "seal", "setPrototypeOf", "values"
  }

  /** What the expression `descriptions[category]?.[template] || fallback` evaluates to. */
  datatype Looked =
    | Text(s: string)                          // a string: an own description or the fallback
    | InheritedMember(name: string)            // an Object.prototype member: a function or an object, never a string
    | BuiltinProperty(owner: string, name: string) // a property a built-in may carry; its value is not modelled

  /**
   * The source's lookup: a plain property access, which also finds the members
   * that the description objects inherit from `Object.prototype`. An inherited
   * member is truthy, so the `||` fallback does not replace it.
   */
  function DescriptionAsWritten(category: string, template: string): (r: Looked)
    ensures Described(category, template) ==> r == Text(GetTemplateDescription(category, template))
    ensures category in Descriptions && template !in Descriptions[category] ==>
              (r == Text(Fallback) <==> template !in ObjectPrototypeMembers)
    ensures category !in Descriptions && category !in ObjectPrototypeMembers ==> r == Text(Fallback)
    ensures category !in Descriptions && template !in BuiltinMemberNames ==> r == Text(Fallback)
  {
    if category in Descriptions then
      var row := Descriptions[category];
      if template in row then Text(if row[template] != "" then row[template] else Fallback)
      else if template in ObjectPrototypeMembers then InheritedMember(template)
      else Text(Fallback)
    else if category in ObjectPrototypeMembers && template in BuiltinMemberNames then BuiltinProperty(category, template)
    else Text(Fallback)
  }

  /**
   * A known category asked for the template "toString" yields the inherited
   * `Object.prototype.toString` function rather than the fallback string.
   */
  lemma AsWrittenReturnsInheritedMethod()
    ensures DescriptionAsWritten("opportunities", "toString") == InheritedMember("toString")
    ensures GetTemplateDescription("opportunities", "toString") == Fallback
  {
  }

  /**
   * A category named after an inherited member, asked for a template that no
   * built-in carries, falls through to the fallback.
   */
  lemma AsWrittenUnknownMemberFallsBack()
    ensures DescriptionAsWritten("valueOf", "x") == Text(Fallback)
  {
    assert "valueOf" !in Descriptions;
    assert forall name :: name in BuiltinMemberNames ==> |name| > 1;
  }
}
