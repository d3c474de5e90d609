/** `cleanTitleForOMDB` of lib/utils.ts: the key under which a viewing-history title is looked up
    in the metadata store and in the metadata provider. */
module TitleCleaner {
  import opened JsString

  const Quote: char := '"'

  /** `t.replace(/^"|"$/g, '')`: a quote at the start and a quote at the end are removed, once
      each; in the one-character string `"` both patterns would match the same quote, which goes. */
  function StripEndQuotes(t: string): (r: string)
    ensures |r| <= |t|
  {
    var u := if |t| > 0 && t[0] == Quote then t[1..] else t;
    if |u| > 0 && u[|u| - 1] == Quote then u[..|u| - 1] else u
  }

  /** `s.includes(':') ? s.split(':')[0] : s`. */
  function BeforeColon(s: string): string {
    if ':' in s then Split(s, ':')[0] else s
  }

  /** `cleanTitleForOMDB(title)`. */
  function Clean(title: string): (r: string)
    ensures NoOuterSpace(r)
  {
    Trim(BeforeColon(StripEndQuotes(Trim(title))))
  }

  /** Exactly one character goes from each end that holds a quote, and nothing else changes. */
  lemma StripEndQuotesFacts(t: string)
    ensures IsSlice(StripEndQuotes(t), t)
    ensures |t| >= 2 && t[0] == Quote && t[|t| - 1] == Quote ==> StripEndQuotes(t) == t[1..|t| - 1]
    ensures |t| >= 1 && t[0] == Quote && t[|t| - 1] != Quote ==> StripEndQuotes(t) == t[1..]
    ensures |t| >= 1 && t[0] != Quote && t[|t| - 1] == Quote ==> StripEndQuotes(t) == t[..|t| - 1]
    ensures |t| >= 1 && t[0] != Quote && t[|t| - 1] != Quote ==> StripEndQuotes(t) == t
    ensures t == [Quote] ==> StripEndQuotes(t) == []
    ensures t == [] ==> StripEndQuotes(t) == []
  {
    var r := StripEndQuotes(t);
    if |t| > 0 && t[0] == Quote {
      var u := t[1..];
      if |u| > 0 && u[|u| - 1] == Quote {
        assert r == t[1..|t| - 1];
      } else {
        assert r == t[1..|t|];
      }
    } else {
      if |t| > 0 && t[|t| - 1] == Quote {
        assert r == t[0..|t| - 1];
      } else {
        assert r == t[0..|t|];
      }
    }
  }

  /** The part of `s` before its first colon, or all of `s` when it has none. */
  lemma BeforeColonFacts(s: string)
    ensures ':' !in BeforeColon(s)
    ensures |BeforeColon(s)| <= |s| && BeforeColon(s) == s[..|BeforeColon(s)|]
    ensures ':' !in s ==> BeforeColon(s) == s
    ensures ':' in s ==> |BeforeColon(s)| < |s| && s[|BeforeColon(s)|] == ':'
    ensures IsSlice(BeforeColon(s), s)
  {
    SplitFirst(s, ':');
    assert BeforeColon(s) == s[0..|BeforeColon(s)|];
  }

  /** The cleaned title holds no colon, has no white space at either end, is a contiguous part of
      the original title, and is empty for an empty title. */
  lemma CleanFacts(title: string)
    ensures ':' !in Clean(title)
    ensures NoOuterSpace(Clean(title))
    ensures IsSlice(Clean(title), title)
    ensures title == "" ==> Clean(title) == ""
  {
    var t := Trim(title);
    var u := StripEndQuotes(t);
    var v := BeforeColon(u);
    TrimFacts(title);
    StripEndQuotesFacts(t);
    BeforeColonFacts(u);
    TrimFacts(v);
    SliceTrans(v, u, t);
    SliceTrans(v, t, title);
    SliceTrans(Trim(v), v, title);
    NoColonSlice(Trim(v), v);
  }

  lemma NoColonSlice(r: string, s: string)
    requires IsSlice(r, s) && ':' !in s
    ensures ':' !in r
  {
    var i, j :| 0 <= i <= j <= |s| && r == s[i..j];
    assert forall k :: 0 <= k < |r| ==> r[k] == s[i + k];
  }

  /** A title that, once trimmed, has no colon and no quote at either end is only trimmed. */
  lemma CleanPlain(title: string)
    requires ':' !in Trim(title)
    requires Trim(title) == [] || (Trim(title)[0] != Quote && Trim(title)[|Trim(title)| - 1] != Quote)
    ensures Clean(title) == Trim(title)
  {
    var t := Trim(title);
    StripEndQuotesFacts(t);
    BeforeColonFacts(t);
    TrimFacts(t);
  }

  /** A second pass changes nothing when the first result has no quote at either end: only
      quotes left behind by the one-quote-per-end rule can be removed again. */
  lemma CleanSecondPass(title: string)
    requires Clean(title) == [] || (Clean(title)[0] != Quote && Clean(title)[|Clean(title)| - 1] != Quote)
    ensures Clean(Clean(title)) == Clean(title)
  {
    CleanFacts(title);
    TrimFacts(Clean(title));
    CleanPlain(Clean(title));
  }

  /** The cleaning is not idempotent: `""abc"` becomes `"abc`, which becomes `abc`. */
  lemma CleanNotIdempotent()
    ensures Clean("\"\"abc\"") == "\"abc"
    ensures Clean(Clean("\"\"abc\"")) == "abc"
  {
    var s := "\"\"abc\"";
    TrimFacts(s);
    assert NoOuterSpace(s);
    assert StripEndQuotes(s) == "\"abc";
    assert ':' !in "\"abc";
    TrimFacts("\"abc");
    assert NoOuterSpace("\"abc");
    TrimFacts("abc");
    assert NoOuterSpace("abc");
    assert StripEndQuotes("\"abc") == "abc";
    assert ':' !in "abc";
  }
}
