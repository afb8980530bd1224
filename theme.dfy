/**
 * The light/dark theme: the `data-theme` attribute and the `dark` class of
 * the root element, and the sun/moon icon class of the toggle button's icon.
 * The system preference is a parameter; the media query and the event
 * wiring are not modelled.
 */
module Theme {
  import opened Wrappers

  /**
   * A DOM element, as far as the theme code uses it: its attributes and its
   * class list. The `class` attribute is represented only by `classList`;
   * `attributes` holds the other attributes.
   */
  class Element {
    var attributes: map<string, string>
    var classList: set<string>

    constructor (attributes: map<string, string>, classList: set<string>)
      ensures this.attributes == attributes && this.classList == classList
    {
      this.attributes := attributes;
      this.classList := classList;
    }
  }

  const DataTheme: string := "data-theme"
  const DarkClass: string := "dark"
  const Sun: string := "fa-sun"
  const Moon: string := "fa-moon"

  /** `getAttribute(name)`: `None` stands for `null`. */
  function GetAttribute(attributes: map<string, string>, name: string): Option<string> {
    if name in attributes then Some(attributes[name]) else None
  }

  /** `classList.replace(token, newToken)`: nothing changes when `token` is absent. */
  function ReplaceToken(tokens: set<string>, token: string, newToken: string): set<string> {
    if token in tokens then tokens - {token} + {newToken} else tokens
  }

  /** The icon classes after the theme is set: the moon becomes the sun for dark, the sun the moon for light. */
  function IconFor(tokens: set<string>, dark: bool): set<string> {
    if dark then ReplaceToken(tokens, Moon, Sun) else ReplaceToken(tokens, Sun, Moon)
  }

  /** The theme the system preference maps to. */
  function PreferredTheme(prefersDark: bool): string {
    if prefersDark then "dark" else "light"
  }

  /** The theme a click on the toggle switches to: dark from light, light from anything else (including no attribute). */
  function ToggledTheme(current: Option<string>): string {
    if current == Some("light") then "dark" else "light"
  }

  /** The root element shows `theme`: the attribute holds it and the `dark` class is present exactly for dark. */
  predicate Shows(attributes: map<string, string>, classList: set<string>, theme: string) {
    GetAttribute(attributes, DataTheme) == Some(theme) && (DarkClass in classList <==> theme == "dark")
  }

  /** An icon that shows either the sun or the moon shows exactly the one that fits the theme once the theme is set. */
  lemma IconMatchesTheme(tokens: set<string>, dark: bool)
    requires Sun in tokens || Moon in tokens
    ensures Sun in IconFor(tokens, dark) <==> dark
    ensures Moon in IconFor(tokens, dark) <==> !dark
    ensures IconFor(tokens, dark) - {Sun, Moon} == tokens - {Sun, Moon}
  {
  }

  /** Toggling twice from a light or dark page comes back to the same theme; one toggle always changes it. */
  lemma ToggleFlips(theme: string)
    requires theme == "light" || theme == "dark"
    ensures ToggledTheme(Some(theme)) != theme
    ensures ToggledTheme(Some(ToggledTheme(Some(theme)))) == theme
  {
  }

  /** A toggle right after the preference was applied gives the opposite of the preference. */
  lemma ToggleAfterPreference(prefersDark: bool)
    ensures ToggledTheme(Some(PreferredTheme(prefersDark))) == PreferredTheme(!prefersDark)
  {
  }

  /**
   * The body of `detectColorScheme` and of its `change` listener: applies
   * the system preference to the root element and, when there is one, to
   * the icon.
   */
  method ApplyColorScheme(html: Element, icon: Element?, prefersDark: bool)
    requires icon != html
    modifies html, icon
    ensures html.attributes == old(html.attributes)[DataTheme := PreferredTheme(prefersDark)]
    ensures html.classList == if prefersDark then old(html.classList) + {DarkClass} else old(html.classList) - {DarkClass}
    ensures Shows(html.attributes, html.classList, PreferredTheme(prefersDark))
    ensures icon != null ==> icon.classList == IconFor(old(icon.classList), prefersDark)
    ensures icon != null ==> icon.attributes == old(icon.attributes)
  {
    if prefersDark {
      html.attributes := html.attributes[DataTheme := "dark"];
      html.classList := html.classList + {DarkClass};
      if icon != null {
        icon.classList := ReplaceToken(icon.classList, Moon, Sun);
      }
    } else {
      html.attributes := html.attributes[DataTheme := "light"];
      html.classList := html.classList - {DarkClass};
      if icon != null {
        icon.classList := ReplaceToken(icon.classList, Sun, Moon);
      }
    }
  }

  /**
   * The click handler of the theme toggle. The icon is not checked for
   * `null` here: without one, the root element is still switched and then
   * the handler throws, which `threw` reports.
   */
  method Toggle(html: Element, icon: Element?) returns (threw: bool)
    requires icon != html
    modifies html, icon
    ensures var theme := ToggledTheme(GetAttribute(old(html.attributes), DataTheme));
            && html.attributes == old(html.attributes)[DataTheme := theme]
            && html.classList == (if theme == "dark" then old(html.classList) + {DarkClass} else old(html.classList) - {DarkClass})
            && Shows(html.attributes, html.classList, theme)
            && (icon != null ==> icon.classList == IconFor(old(icon.classList), theme == "dark"))
    ensures icon != null ==> icon.attributes == old(icon.attributes)
    ensures threw <==> icon == null
  {
    threw := false;
    if GetAttribute(html.attributes, DataTheme) == Some("light") {
      html.attributes := html.attributes[DataTheme := "dark"];
      html.classList := html.classList + {DarkClass};
      if icon == null {
        threw := true;
      } else {
        icon.classList := ReplaceToken(icon.classList, Moon, Sun);
      }
    } else {
      html.attributes := html.attributes[DataTheme := "light"];
      html.classList := html.classList - {DarkClass};
      if icon == null {
        threw := true;
      } else {
        icon.classList := ReplaceToken(icon.classList, Sun, Moon);
      }
    }
  }
}
