/** The badge (src/components/common/Badge.jsx): a table of colours, icons and default
    texts by badge type, the fallback for an unknown type, and the caller's overrides of
    text and icon. */
module Badge {
  import opened Wrappers
  import opened Formatters

  /** The icons the table names. */
  datatype Icon = AlertTriangle | TrendingUp | CheckCircle | Package

  /** A row of `types`; `icon` is None where the row has null or no icon. */
  datatype BadgeConfig = BadgeConfig(bg: string, text: string, icon: Option<Icon>, defaultText: string)

  /** `types`: stock states, movement types, roles and the warehouse. */
  const Types: map<string, BadgeConfig> := map[
    "bajo" := BadgeConfig("bg-red-100", "text-red-700", Some(AlertTriangle), "Stock bajo"),
    "medio" := BadgeConfig("bg-yellow-100", "text-yellow-700", Some(TrendingUp), "Stock medio"),
    "suficiente" := BadgeConfig("bg-green-100", "text-green-700", Some(CheckCircle), "Stock suficiente"),
    "entrada" := BadgeConfig("bg-green-100", "text-green-700", None, "entrada"),
    "salida" := BadgeConfig("bg-red-100", "text-red-700", None, "salida"),
    "administrador" := BadgeConfig("bg-lime-100", "text-lime-700", None, "Administrador"),
    "colaborador" := BadgeConfig("bg-orange-100", "text-orange-700", None, "Colaborador"),
    "almacen" := BadgeConfig("bg-indigo-100", "text-indigo-700", None, "Almacén")]

  /** `types[type] || types.medio`. */
  function ConfigFor(badgeType: string): (config: BadgeConfig)
    ensures badgeType in Types ==> config == Types[badgeType]
    ensures badgeType !in Types ==> config == Types["medio"]
  {
    if badgeType in Types then Types[badgeType] else Types["medio"]
  }

  /** What a badge shows: its class list, its icon if any, and its text. */
  datatype BadgeView = BadgeView(className: string, icon: Option<Icon>, text: string)

  const BaseClasses := "inline-flex items-center gap-1.5 px-3 py-1 rounded-full text-xs font-medium "

  /** The badge for a type, an optional text (absent or '' keeps the default), an optional
      icon and extra classes. */
  function RenderBadge(badgeType: string, text: Option<string>, icon: Option<Icon>, className: string)
    : (view: BadgeView)
    ensures text.Some? && text.value != "" ==> view.text == text.value
    ensures (text.None? || text.value == "") ==> view.text == ConfigFor(badgeType).defaultText
    ensures icon.Some? ==> view.icon == icon
    ensures icon.None? ==> view.icon == ConfigFor(badgeType).icon
    ensures view.text != ""
    ensures view.className == BaseClasses + ConfigFor(badgeType).bg + " " + ConfigFor(badgeType).text + " " + className
  {
    var config := ConfigFor(badgeType);
    var shown := if text.Some? && text.value != "" then text.value else config.defaultText;
    assert config.defaultText != "" by { DefaultTextsNonEmpty(badgeType); }
    BadgeView(BaseClasses + config.bg + " " + config.text + " " + className,
              if icon.Some? then icon else config.icon, shown)
  }

  lemma DefaultTextsNonEmpty(badgeType: string)
    ensures ConfigFor(badgeType).defaultText != ""
  {
  }

  /** A type the table lacks looks exactly like a medio badge. */
  lemma UnknownTypeIsMedio(badgeType: string, text: Option<string>, icon: Option<Icon>, className: string)
    requires badgeType !in Types
    ensures RenderBadge(badgeType, text, icon, className) == RenderBadge("medio", text, icon, className)
  {
  }

  /** Two colour classes of the same hue, whatever their shade (`text-red-700`, `text-red-600`). */
  predicate SameHue(a: string, b: string) {
    |a| >= 4 && |b| >= 4 && a[..|a| - 4] == b[..|b| - 4]
  }

  /** The three stock badges carry distinct texts and the hue `getStockColor` gives the
      same state: red, yellow, green. */
  lemma StockBadgesMatchStockColors()
    ensures forall st: StockStatus :: StatusName(st) in Types && SameHue(Types[StatusName(st)].text, ColorForStatusName(StatusName(st)))
    ensures forall s1: StockStatus, s2: StockStatus :: s1 != s2 ==> Types[StatusName(s1)].defaultText != Types[StatusName(s2)].defaultText
  {
    assert Types["bajo"].text[..|Types["bajo"].text| - 4] == "text-red";
    assert Red[..|Red| - 4] == "text-red";
    assert Types["medio"].text[..|Types["medio"].text| - 4] == "text-yellow";
    assert Yellow[..|Yellow| - 4] == "text-yellow";
    assert Types["suficiente"].text[..|Types["suficiente"].text| - 4] == "text-green";
    assert Green[..|Green| - 4] == "text-green";
    assert "Stock bajo"[6] != "Stock medio"[6];
    assert "Stock bajo"[6] != "Stock suficiente"[6];
    assert "Stock medio"[6] != "Stock suficiente"[6];
  }

  /** An entrada badge is green and a salida badge is red, and neither has an icon. */
  lemma MovementBadges()
    ensures SameHue(ConfigFor("entrada").text, Green) && ConfigFor("entrada").icon.None?
    ensures SameHue(ConfigFor("salida").text, Red) && ConfigFor("salida").icon.None?
  {
    assert ConfigFor("entrada").text[..9] == Green[..9];
    assert ConfigFor("salida").text[..7] == Red[..7];
  }
}
