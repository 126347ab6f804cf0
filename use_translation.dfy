/**
 * The translation hook: the current language, the setter that changes it,
 * and `t`, which resolves a dotted key against the current locale's table
 * and falls back to the key itself.
 */
module UseTranslation {
  import opened Tree
  import opened Paths
  import opened Tables

  /**
   * `value || key`: undefined and the empty string are falsy and give the
   * key back; a non-empty string and any object are returned as they are.
   */
  function OrKey(value: Option<Node>, key: string): (r: Node)
    ensures value.None? || value.value == Leaf("") ==> r == Leaf(key)
    ensures value.Some? && value.value != Leaf("") ==> r == value.value
  {
    match value
    case None => Leaf(key)
    case Some(Leaf(s)) => if |s| == 0 then Leaf(key) else Leaf(s)
    case Some(Branch(ps)) => Branch(ps)
  }

  /** What `t(key)` returns when the current locale's table is `root`. */
  function Resolve(root: Node, key: string): Node
  {
    OrKey(Lookup(root, Split(key, '.')), key)
  }

  /** One instance of the hook: its `language` state and the closures reading it. */
  class Localizer {
    /** The `translations` constant, one table per locale. */
    const translations: Language -> Node
    /** The `useState` cell; its type keeps it within en, fr and es. */
    var language: Language

    /** `useState<Language>('en')`: the hook starts in English. */
    constructor()
      ensures translations == Table
      ensures language == En
    {
      translations := Table;
      language := En;
    }

    /** `setLanguage(l)`: any locale may follow any locale, itself included. */
    method SetLanguage(l: Language)
      modifies this
      ensures language == l
    {
      language := l;
    }

    /**
     * `t(key)`: split the key on '.', start at the current locale's table,
     * take one property per segment (a string or undefined gives undefined),
     * and return the value reached unless it is falsy, the key otherwise.
     */
    method T(key: string) returns (r: Node)
      ensures r == Resolve(translations(language), key)
    {
      var keys := Split(key, '.');
      var value := Some(translations(language));
      for i := 0 to |keys|
        invariant value == Lookup(translations(language), keys[..i])
      {
        LookupSnoc(translations(language), keys[..i], keys[i]);
        assert keys[..i + 1] == keys[..i] + [keys[i]];
        value := Step(value, keys[i]);
      }
      assert keys[..|keys|] == keys;
      r := OrKey(value, key);
    }
  }

  /** `t` changes nothing, so asking twice with no `setLanguage` between gives one answer. */
  method RepeatedLookup(loc: Localizer, key: string) returns (first: Node, second: Node)
    ensures first == second == Resolve(loc.translations(loc.language), key)
  {
    first := loc.T(key);
    second := loc.T(key);
  }

  /** `setLanguage(a); setLanguage(b); setLanguage(a)` leaves lookups as `setLanguage(a)` alone does. */
  method SwitchAway(loc: Localizer, a: Language, b: Language, key: string) returns (direct: Node, after: Node)
    modifies loc
    ensures loc.language == a
    ensures direct == after == Resolve(loc.translations(a), key)
  {
    loc.SetLanguage(a);
    direct := loc.T(key);
    loc.SetLanguage(b);
    loc.SetLanguage(a);
    after := loc.T(key);
  }

  /** A path that resolves in a well-formed table is returned as resolved: a leaf never falls back. */
  lemma ResolveFound(root: Node, key: string)
    requires WellFormed(root)
    requires Lookup(root, Split(key, '.')).Some?
    ensures Resolve(root, key) == Lookup(root, Split(key, '.')).value
  {
    LookupWellFormed(root, Split(key, '.'));
  }

  /** Once a segment is missing, at any depth, `t` returns the key verbatim. */
  lemma ResolveMissing(root: Node, key: string, j: nat)
    requires j <= |Split(key, '.')|
    requires Lookup(root, Split(key, '.')[..j]) == None
    ensures Resolve(root, key) == Leaf(key)
  {
    var keys := Split(key, '.');
    LookupAbsentPrefix(root, keys[..j], keys[j..]);
    assert keys[..j] + keys[j..] == keys;
  }

  /** A key with an empty segment looks up the empty key, which no well-formed table has. */
  lemma ResolveEmptySegment(root: Node, key: string)
    requires WellFormed(root)
    requires "" in Split(key, '.')
    ensures Resolve(root, key) == Leaf(key)
  {
    LookupEmptySegment(root, Split(key, '.'));
  }

  /** The empty key, and keys with a leading, trailing or doubled '.', fall back to themselves. */
  lemma ResolveMalformedKeys(root: Node, a: string, b: string)
    requires WellFormed(root)
    ensures Resolve(root, "") == Leaf("")
    ensures Resolve(root, "." + b) == Leaf("." + b)
    ensures Resolve(root, a + ".") == Leaf(a + ".")
    ensures Resolve(root, a + ".." + b) == Leaf(a + ".." + b)
  {
    SplitEmpty('.');
    SplitLeadingSeparator(b, '.');
    assert Split("." + b, '.')[0] == "";
    SplitTrailingSeparator(a, '.');
    assert Split(a + ".", '.')[|Split(a, '.')|] == "";
    SplitDoubledSeparator(a, b, '.');
    assert Split(a + ".." + b, '.')[|Split(a, '.')|] == "";
    ResolveEmptySegment(root, "");
    ResolveEmptySegment(root, "." + b);
    ResolveEmptySegment(root, a + ".");
    ResolveEmptySegment(root, a + ".." + b);
  }

  /**
   * Well-formed tables of the same shape agree on which keys resolve, and on
   * whether `t` returns a string, a nested object, or the key itself.
   */
  lemma ResolveSameShape(a: Node, b: Node, key: string)
    requires WellFormed(a) && WellFormed(b) && SameShape(a, b)
    ensures Lookup(a, Split(key, '.')).Some? <==> Lookup(b, Split(key, '.')).Some?
    ensures Lookup(a, Split(key, '.')) == None ==> Resolve(a, key) == Resolve(b, key) == Leaf(key)
    ensures Lookup(a, Split(key, '.')).Some? ==>
              && Resolve(a, key) == Lookup(a, Split(key, '.')).value
              && Resolve(b, key) == Lookup(b, Split(key, '.')).value
              && SameShape(Resolve(a, key), Resolve(b, key))
  {
    var keys := Split(key, '.');
    LookupSameShape(a, b, keys);
    if Lookup(a, keys).Some? {
      ResolveFound(a, key);
      ResolveFound(b, key);
    }
  }
}
