/** The auto-reply matcher of the message pipeline
    (src/services/whatsappService.js:39-41): the first rule, in list order,
    whose keyword occurs in the inbound text, both compared in lower case. The
    rule list itself is read from a JSON file by src/utils/autoReply.js, which
    is not part of this model: here it is a parameter. */
module AutoReply {
  import opened Wrappers

  datatype Rule = Rule(keyword: string, reply: string)

  /** `toLowerCase` restricted to ASCII letters. */
  function LowerChar(c: char): char {
    if 'A' <= c <= 'Z' then (c as int + 32) as char else c
  }

  function Lower(s: string): (r: string)
    ensures |r| == |s|
  {
    seq(|s|, i requires 0 <= i < |s| => LowerChar(s[i]))
  }

  /** `sub` occurs in `s` starting at position `i`. */
  ghost predicate OccursAt(s: string, sub: string, i: int) {
    0 <= i && i + |sub| <= |s| && s[i..i + |sub|] == sub
  }

  /** `String.prototype.includes`: does `sub` occur somewhere in `s`? */
  function Includes(s: string, sub: string): bool
    decreases |s|
  {
    if sub <= s then true
    else if |s| <= |sub| then false
    else Includes(s[1..], sub)
  }

  /** `Includes` means exactly that `sub` occurs at some position of `s`. */
  lemma {:induction false} IncludesIff(s: string, sub: string)
    ensures Includes(s, sub) <==> exists i :: OccursAt(s, sub, i)
    decreases |s|
  {
    if sub <= s {
      assert OccursAt(s, sub, 0);
    } else if |s| <= |sub| {
    } else {
      IncludesIff(s[1..], sub);
      if Includes(s[1..], sub) {
        var i :| OccursAt(s[1..], sub, i);
        assert s[i + 1..i + 1 + |sub|] == s[1..][i..i + |sub|];
        assert OccursAt(s, sub, i + 1);
      }
      if i :| OccursAt(s, sub, i) {
        assert s[1..][i - 1..i - 1 + |sub|] == s[i..i + |sub|];
        assert OccursAt(s[1..], sub, i - 1);
      }
    }
  }

  /** The empty string occurs in every string. */
  lemma IncludesEmpty(s: string)
    ensures Includes(s, "")
  {
  }

  /** `text.toLowerCase().includes(r.keyword.toLowerCase())` */
  predicate Matches(text: string, rule: Rule) {
    Includes(Lower(text), Lower(rule.keyword))
  }

  /** The position of the rule `rules.find` returns: the first matching one. */
  function FirstMatch(rules: seq<Rule>, text: string): (r: Option<nat>)
    ensures r.Some? ==> r.value < |rules| && Matches(text, rules[r.value])
    ensures r.Some? ==> forall j :: 0 <= j < r.value ==> !Matches(text, rules[j])
    ensures r.None? <==> forall j :: 0 <= j < |rules| ==> !Matches(text, rules[j])
  {
    if rules == [] then None
    else if Matches(text, rules[0]) then Some(0)
    else
      match FirstMatch(rules[1..], text)
      case None => None
      case Some(k) => Some(k + 1)
  }

  /** `rules.find(r => text.toLowerCase().includes(r.keyword.toLowerCase()))` */
  function Find(rules: seq<Rule>, text: string): (r: Option<Rule>)
    ensures r.Some? ==> r.value in rules && Matches(text, r.value)
    ensures r.None? <==> forall rule :: rule in rules ==> !Matches(text, rule)
  {
    match FirstMatch(rules, text)
    case None => None
    case Some(k) => Some(rules[k])
  }

  /** First match wins: `Find` returns the rule at position k exactly when
      that rule matches and no earlier one does. */
  lemma FindIsFirst(rules: seq<Rule>, text: string, k: nat)
    requires k < |rules|
    ensures (Matches(text, rules[k]) && forall j :: 0 <= j < k ==> !Matches(text, rules[j]))
            <==> FirstMatch(rules, text) == Some(k)
    ensures FirstMatch(rules, text) == Some(k) ==> Find(rules, text) == Some(rules[k])
  {
    if Matches(text, rules[k]) && forall j :: 0 <= j < k ==> !Matches(text, rules[j]) {
      var r := FirstMatch(rules, text);
      assert r.Some? && !(r.value < k) && !(r.value > k);
    }
  }

  /** A rule with an empty keyword matches every text, so it shadows all rules after it. */
  lemma EmptyKeywordMatchesAll(text: string, reply: string)
    ensures Matches(text, Rule("", reply))
  {
    assert Lower("") == "";
  }

  /** Matching ignores the case of ASCII letters on either side. */
  lemma MatchIgnoresCase(text: string, rule: Rule)
    ensures Matches(Lower(text), rule) == Matches(text, rule)
    ensures Matches(text, Rule(Lower(rule.keyword), rule.reply)) == Matches(text, rule)
  {
    LowerIdempotent(text);
    LowerIdempotent(rule.keyword);
  }

  lemma LowerIdempotent(s: string)
    ensures Lower(Lower(s)) == Lower(s)
  {
    forall i | 0 <= i < |s| ensures Lower(Lower(s))[i] == Lower(s)[i] {
    }
  }

  /** With rules `hi -> A` and `hi there -> B`, the text `Hi there` is answered
      with `A`: both match, and the earlier rule wins. */
  lemma FirstMatchWinsExample()
    ensures Find([Rule("hi", "A"), Rule("hi there", "B")], "Hi there") == Some(Rule("hi", "A"))
  {
    var rules := [Rule("hi", "A"), Rule("hi there", "B")];
    var text := "Hi there";
    assert Lower(text) == "hi there";
    assert Lower("hi") == "hi";
    assert "hi" <= Lower(text);
    assert Matches(text, rules[0]);
    FindIsFirst(rules, text, 0);
  }
}
