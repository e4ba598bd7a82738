/**
 * The error classifier (`ErrorCategory.categorize`, aidoc/AiDoc.py:44-65):
 * a message is lower-cased and tested against five keyword groups in a
 * fixed order; the first group with a keyword that occurs in the message
 * names the category, and a message that matches no group is `Other`.
 */
module ErrorCategory {
  import opened Text

  datatype Category = Authentication | Network | JavaScript | Resource | DOM | Other

  /** The category's string, as it appears in the summary and as a dictionary key. */
  function Name(c: Category): string {
    match c
    case Authentication => "Authentication"
    case Network => "Network"
    case JavaScript => "JavaScript"
    case Resource => "Resource"
    case DOM => "DOM"
    case Other => "Other"
  }

  const AuthenticationTerms: seq<string> := ["login", "auth", "credential", "permission"]
  const NetworkTerms: seq<string> := ["net::", "failed to load", "network", "fetch"]
  const JavaScriptTerms: seq<string> := ["undefined", "null", "cannot read property", "is not a function"]
  const ResourceTerms: seq<string> := ["404", "resource", "not found", "failed to load resource"]
  // The capital S is in the source: the term is compared with an already lower-cased message.
  const DomTerms: seq<string> := ["querySelector", "element", "node", "document"]

  /** Python's `any(term in message for term in terms)`. */
  predicate AnyTermIn(terms: seq<string>, message: string) {
    exists t | t in terms :: Contains(message, t)
  }

  /** `ErrorCategory.categorize`: the if/elif chain over the lower-cased message. */
  function Categorize(errorMessage: string): Category {
    var message := Lower(errorMessage);
    if AnyTermIn(AuthenticationTerms, message) then Authentication
    else if AnyTermIn(NetworkTerms, message) then Network
    else if AnyTermIn(JavaScriptTerms, message) then JavaScript
    else if AnyTermIn(ResourceTerms, message) then Resource
    else if AnyTermIn(DomTerms, message) then DOM
    else Other
  }

  /*
   * An independent statement of the classifier: a table of rules tried in
   * order, and the generic first-match search over such a table.
   */

  const Rules: seq<(Category, seq<string>)> := [
    (Authentication, AuthenticationTerms),
    (Network, NetworkTerms),
    (JavaScript, JavaScriptTerms),
    (Resource, ResourceTerms),
    (DOM, DomTerms)
  ]

  /** The category of the first rule with a keyword in `message`, or `Other`. */
  function FirstMatch(rules: seq<(Category, seq<string>)>, message: string): (c: Category)
    ensures c == Other || exists k | 0 <= k < |rules| :: rules[k].0 == c
  {
    if rules == [] then Other
    else if AnyTermIn(rules[0].1, message) then rules[0].0
    else FirstMatch(rules[1..], message)
  }

  /** One step of the search: the head rule, or the search over the rest. */
  lemma FirstMatchCons(rule: (Category, seq<string>), rest: seq<(Category, seq<string>)>, message: string)
    ensures FirstMatch([rule] + rest, message) ==
              if AnyTermIn(rule.1, message) then rule.0 else FirstMatch(rest, message)
  {
    assert ([rule] + rest)[1..] == rest;
  }

  /** The classifier is the first-match search over the rule table. */
  lemma CategorizeIsFirstMatch(errorMessage: string)
    ensures Categorize(errorMessage) == FirstMatch(Rules, Lower(errorMessage))
  {
    var m := Lower(errorMessage);
    var fromDom := [(DOM, DomTerms)];
    var fromResource := [(Resource, ResourceTerms)] + fromDom;
    var fromJavaScript := [(JavaScript, JavaScriptTerms)] + fromResource;
    var fromNetwork := [(Network, NetworkTerms)] + fromJavaScript;
    assert Rules == [(Authentication, AuthenticationTerms)] + fromNetwork;
    FirstMatchCons((Authentication, AuthenticationTerms), fromNetwork, m);
    FirstMatchCons((Network, NetworkTerms), fromJavaScript, m);
    FirstMatchCons((JavaScript, JavaScriptTerms), fromResource, m);
    FirstMatchCons((Resource, ResourceTerms), fromDom, m);
    FirstMatchCons((DOM, DomTerms), [], m);
  }

  /** Rule categories are distinct and none of them is `Other`. */
  ghost predicate WellFormedRules(rules: seq<(Category, seq<string>)>) {
    && (forall i, j | 0 <= i < j < |rules| :: rules[i].0 != rules[j].0)
    && (forall i | 0 <= i < |rules| :: rules[i].0 != Other)
  }

  /** Over distinct rules, rule `k` wins exactly when it matches and no earlier rule does. */
  lemma {:induction false} FirstMatchChoosesRule(rules: seq<(Category, seq<string>)>, message: string, k: nat)
    requires WellFormedRules(rules)
    requires k < |rules|
    ensures FirstMatch(rules, message) == rules[k].0 <==>
              AnyTermIn(rules[k].1, message) && forall j | 0 <= j < k :: !AnyTermIn(rules[j].1, message)
    decreases k
  {
    if !AnyTermIn(rules[0].1, message) && k > 0 {
      var rest := rules[1..];
      assert WellFormedRules(rest) by {
        forall i, j | 0 <= i < j < |rest| ensures rest[i].0 != rest[j].0 {
          assert rest[i] == rules[i + 1] && rest[j] == rules[j + 1];
        }
      }
      FirstMatchChoosesRule(rest, message, k - 1);
      assert forall j | 0 <= j < k - 1 :: rest[j] == rules[j + 1];
    } else if !AnyTermIn(rules[0].1, message) {
      var c := FirstMatch(rules[1..], message);
      if c != Other {
        var i :| 0 <= i < |rules[1..]| && rules[1..][i].0 == c;
        assert rules[i + 1].0 == c;
      }
    }
  }

  /** Over rules none of which is `Other`, the search yields `Other` exactly when no rule matches. */
  lemma {:induction false} FirstMatchOther(rules: seq<(Category, seq<string>)>, message: string)
    requires forall i | 0 <= i < |rules| :: rules[i].0 != Other
    ensures FirstMatch(rules, message) == Other <==>
              forall j | 0 <= j < |rules| :: !AnyTermIn(rules[j].1, message)
  {
    if rules != [] {
      FirstMatchOther(rules[1..], message);
      assert forall j | 0 <= j < |rules| - 1 :: rules[1..][j] == rules[j + 1];
    }
  }

  /**
   * Rule `k` wins exactly when its group matches and no earlier group does:
   * the order Authentication, Network, JavaScript, Resource, DOM decides.
   */
  lemma CategorizeChoosesFirstMatchingRule(errorMessage: string, k: nat)
    requires k < |Rules|
    ensures Categorize(errorMessage) == Rules[k].0 <==>
              AnyTermIn(Rules[k].1, Lower(errorMessage)) &&
              forall j | 0 <= j < k :: !AnyTermIn(Rules[j].1, Lower(errorMessage))
  {
    CategorizeIsFirstMatch(errorMessage);
    FirstMatchChoosesRule(Rules, Lower(errorMessage), k);
  }

  /** `Other` exactly when no group has a keyword in the message. */
  lemma CategorizeOtherIffNoMatch(errorMessage: string)
    ensures Categorize(errorMessage) == Other <==>
              forall j | 0 <= j < |Rules| :: !AnyTermIn(Rules[j].1, Lower(errorMessage))
  {
    CategorizeIsFirstMatch(errorMessage);
    FirstMatchOther(Rules, Lower(errorMessage));
  }

  /** Classification ignores case: messages equal up to ASCII case get the same category. */
  lemma CategorizeIgnoresCase(a: string, b: string)
    requires |a| == |b|
    requires forall i | 0 <= i < |a| :: SameIgnoringCase(a[i], b[i])
    ensures Categorize(a) == Categorize(b)
  {
    assert Lower(a) == Lower(b);
  }

  /** Lower-casing a message first does not change its category. */
  lemma CategorizeOfLower(errorMessage: string)
    ensures Categorize(Lower(errorMessage)) == Categorize(errorMessage)
  {
    LowerIdempotent(errorMessage);
  }

  /**
   * "failed to load resource" is shadowed by the Network keyword "failed to load":
   * such a message is Network unless an Authentication keyword comes first, never Resource.
   */
  lemma FailedToLoadResourceIsNetwork(errorMessage: string)
    requires Contains(Lower(errorMessage), "failed to load resource")
    ensures Categorize(errorMessage) ==
              if AnyTermIn(AuthenticationTerms, Lower(errorMessage)) then Authentication else Network
    ensures Categorize(errorMessage) != Resource
  {
    var m := Lower(errorMessage);
    assert OccursAt("failed to load resource", "failed to load", 0);
    ContainsTransitive(m, "failed to load resource", "failed to load");
    assert "failed to load" in NetworkTerms;
  }

  /** Within its own group, "failed to load resource" adds nothing either: it contains "resource". */
  lemma ResourceTermRedundant(message: string)
    ensures AnyTermIn(ResourceTerms, message) <==> AnyTermIn(["404", "resource", "not found"], message)
  {
    if Contains(message, "failed to load resource") {
      assert OccursAt("failed to load resource", "resource", 15);
      ContainsTransitive(message, "failed to load resource", "resource");
    }
  }

  /** A lower-cased message never contains "querySelector", whose 'S' is a capital. */
  lemma QuerySelectorNeverMatches(errorMessage: string)
    ensures !Contains(Lower(errorMessage), "querySelector")
  {
    var m := Lower(errorMessage);
    assert "querySelector"[5] == 'S';
    assert 'S' !in m by {
      forall i | 0 <= i < |m| ensures m[i] != 'S' {
        assert !IsUpper(m[i]);
      }
    }
    NotContainsMissingChar(m, "querySelector", 'S');
  }

  /** So the DOM group behaves as if it held only "element", "node" and "document". */
  lemma DomGroupEffectiveTerms(errorMessage: string)
    ensures AnyTermIn(DomTerms, Lower(errorMessage)) <==>
              AnyTermIn(["element", "node", "document"], Lower(errorMessage))
  {
    QuerySelectorNeverMatches(errorMessage);
  }

  /**
   * A message whose only keyword is "querySelector", in whatever case, is
   * `Other`, not `DOM`.
   */
  lemma QuerySelectorAloneIsOther(errorMessage: string)
    requires Contains(Lower(errorMessage), "queryselector")
    requires forall t | t in AuthenticationTerms + NetworkTerms + JavaScriptTerms + ResourceTerms + DomTerms[1..] ::
               !Contains(Lower(errorMessage), t)
    ensures Categorize(errorMessage) == Other
  {
    QuerySelectorNeverMatches(errorMessage);
  }

  /** The letters of the lower-cased TypeError message. */
  lemma TypeErrorLetters()
    ensures forall i | 0 <= i < 35 :: "cannot read properties of undefined"[i] in "cannotredpisfu "
  {
  }

  lemma TypeErrorHasNoAuthenticationTerm()
    ensures !AnyTermIn(AuthenticationTerms, "cannot read properties of undefined")
  {
    var m, letters := "cannot read properties of undefined", "cannotredpisfu ";
    TypeErrorLetters();
    NotContainsOutside(m, letters, "login", 'l');
    NotContainsOutside(m, letters, "auth", 'h');
    NotContainsOutside(m, letters, "credential", 'l');
    NotContainsOutside(m, letters, "permission", 'm');
  }

  lemma TypeErrorHasNoNetworkTerm()
    ensures !AnyTermIn(NetworkTerms, "cannot read properties of undefined")
  {
    var m, letters := "cannot read properties of undefined", "cannotredpisfu ";
    TypeErrorLetters();
    NotContainsOutside(m, letters, "net::", ':');
    NotContainsOutside(m, letters, "failed to load", 'l');
    NotContainsOutside(m, letters, "network", 'w');
    NotContainsOutside(m, letters, "fetch", 'h');
  }

  /** The message of a typical TypeError is JavaScript. */
  lemma UndefinedPropertyIsJavaScript()
    ensures Categorize("Cannot read properties of undefined") == JavaScript
  {
    var m := "cannot read properties of undefined";
    assert Lower("Cannot read properties of undefined") == m by { }
    TypeErrorHasNoAuthenticationTerm();
    TypeErrorHasNoNetworkTerm();
    assert OccursAt(m, "undefined", 26);
    assert "undefined" in JavaScriptTerms;
  }

  lemma ConnectionRefusedHasNoAuthenticationTerm()
    ensures !AnyTermIn(AuthenticationTerms, "net::err_connection_refused")
  {
    var m, letters := "net::err_connection_refused", "net:rcoiufsd_";
    assert forall i | 0 <= i < |m| :: m[i] in letters;
    NotContainsOutside(m, letters, "login", 'l');
    NotContainsOutside(m, letters, "auth", 'a');
    NotContainsOutside(m, letters, "credential", 'a');
    NotContainsOutside(m, letters, "permission", 'p');
  }

  /** A refused connection reported by the browser is Network. */
  lemma ConnectionRefusedIsNetwork()
    ensures Categorize("net::ERR_CONNECTION_REFUSED") == Network
  {
    var m := "net::err_connection_refused";
    assert Lower("net::ERR_CONNECTION_REFUSED") == m by { }
    ConnectionRefusedHasNoAuthenticationTerm();
    assert OccursAt(m, "net::", 0);
    assert "net::" in NetworkTerms;
  }

  /** "401 permission denied" is Authentication, whatever else the message holds. */
  lemma PermissionDeniedIsAuthentication(errorMessage: string)
    requires Contains(Lower(errorMessage), "401 permission denied")
    ensures Categorize(errorMessage) == Authentication
  {
    assert OccursAt("401 permission denied", "permission", 4);
    ContainsTransitive(Lower(errorMessage), "401 permission denied", "permission");
  }
}
