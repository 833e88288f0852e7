/**
 * Bucket policies and the lifecycle rule (bucket/policy.py).
 *
 * Policy documents of the AWS IAM policy language (version "2012-10-17") are
 * values of `PolicyDocument`, not JSON text. The meaning of a document is
 * given by `Allows`: some Allow statement applies to the request and no Deny
 * statement does, where `*` in an action or a resource matches any run of
 * characters. Each builder is paired with a lemma stating exactly which
 * requests its document allows.
 *
 * Calls to the storage service are not made here: what the service answers
 * is a parameter (`Outcome`), and what the code sends is part of the result.
 */
module Policy {
  import opened Wrappers

  // ---------------------------------------------------------------------
  // Documents
  // ---------------------------------------------------------------------

  const PolicyVersion := "2012-10-17"

  datatype Effect = Allow | Deny

  /** A field that is either a single string or a list of strings. */
  datatype Values = One(value: string) | Many(values: seq<string>)

  function Items(v: Values): seq<string>
  {
    match v
    case One(x) => [x]
    case Many(xs) => xs
  }

  /** `principal` "*" stands for everyone. */
  datatype Statement = Statement(sid: Option<string>, effect: Effect, principal: string,
                                 action: Values, resource: Values)

  datatype PolicyDocument = PolicyDocument(version: string, statements: seq<Statement>)

  /** A document in the 2012-10-17 language whose statements all name some action and some resource. */
  predicate WellFormed(doc: PolicyDocument)
  {
    && doc.version == PolicyVersion
    && |doc.statements| >= 1
    && forall st :: st in doc.statements ==> Items(st.action) != [] && Items(st.resource) != []
  }

  const ArnPrefix := "arn:aws:s3:::"
  const GetObject := "s3:GetObject"
  const PublicReadSid := "PublicReadGetObject"

  /** The five actions granted by the multiple-actions policy, in the order the source lists them. */
  const MultipleActions := ["s3:PutObject", "s3:PutObjectAcl", "s3:GetObject", "s3:GetObjectAcl", "s3:DeleteObject"]

  function BucketArn(bucket: string): string
  {
    ArnPrefix + bucket
  }

  /** The resource pattern covering every object of the bucket. */
  function ObjectsArn(bucket: string): string
  {
    BucketArn(bucket) + "/*"
  }

  /** The ARN of every object of the bucket starts with this. */
  function ObjectArnPrefix(bucket: string): string
  {
    BucketArn(bucket) + "/"
  }

  // ---------------------------------------------------------------------
  // Meaning of a document
  // ---------------------------------------------------------------------

  /** Wildcard matching: `*` in `pattern` matches any run of characters, every other character itself. */
  predicate Matches(pattern: string, s: string)
    decreases |pattern| + |s|
  {
    if pattern == [] then s == []
    else if pattern[0] == '*' then Matches(pattern[1..], s) || (s != [] && Matches(pattern, s[1..]))
    else s != [] && s[0] == pattern[0] && Matches(pattern[1..], s[1..])
  }

  predicate AnyMatches(patterns: seq<string>, s: string)
  {
    exists p :: p in patterns && Matches(p, s)
  }

  predicate Applies(st: Statement, who: string, action: string, resource: string)
  {
    && (st.principal == "*" || st.principal == who)
    && AnyMatches(Items(st.action), action)
    && AnyMatches(Items(st.resource), resource)
  }

  predicate Grants(st: Statement, effect: Effect, who: string, action: string, resource: string)
  {
    st.effect == effect && Applies(st, who, action, resource)
  }

  /** `who` may perform `action` on `resource`: an Allow statement applies and no Deny statement does. */
  predicate Allows(doc: PolicyDocument, who: string, action: string, resource: string)
  {
    && (exists st :: st in doc.statements && Grants(st, Allow, who, action, resource))
    && !(exists st :: st in doc.statements && Grants(st, Deny, who, action, resource))
  }

  /** A pattern without `*` matches exactly itself. */
  lemma {:induction false} MatchesLiteral(p: string, s: string)
    requires '*' !in p
    ensures Matches(p, s) <==> s == p
    decreases |p|
  {
    if p != [] && s != [] {
      assert '*' !in p[1..] by {
        forall c | c in p[1..] ensures c != '*' {
          assert c in p;
        }
      }
      MatchesLiteral(p[1..], s[1..]);
      if s[0] == p[0] && s[1..] == p[1..] {
        assert s == [s[0]] + s[1..] && p == [p[0]] + p[1..];
      }
    }
  }

  /** A lone `*` matches every string. */
  lemma {:induction false} StarMatchesAll(s: string)
    ensures Matches("*", s)
    decreases |s|
  {
    assert "*"[1..] == [];
    if s != [] {
      StarMatchesAll(s[1..]);
    }
  }

  /** A `*`-free pattern followed by `*` matches exactly the strings it is a prefix of. */
  lemma {:induction false} MatchesPrefixStar(p: string, s: string)
    requires '*' !in p
    ensures Matches(p + "*", s) <==> p <= s
    decreases |p|
  {
    if p == [] {
      assert p + "*" == "*";
      StarMatchesAll(s);
    } else {
      assert (p + "*")[0] == p[0];
      assert (p + "*")[1..] == p[1..] + "*";
      assert '*' !in p[1..] by {
        forall c | c in p[1..] ensures c != '*' {
          assert c in p;
        }
      }
      if s != [] {
        MatchesPrefixStar(p[1..], s[1..]);
        if p <= s {
          assert p[1..] <= s[1..];
        }
        if s[0] == p[0] && p[1..] <= s[1..] {
          assert p == [p[0]] + p[1..];
          assert s == [s[0]] + s[1..];
          assert p <= s;
        }
      }
    }
  }

  lemma ObjectsArnMatches(bucket: string, resource: string)
    requires '*' !in bucket
    ensures Matches(ObjectsArn(bucket), resource) <==> ObjectArnPrefix(bucket) <= resource
    ensures Matches(BucketArn(bucket), resource) <==> resource == BucketArn(bucket)
  {
    assert '*' !in ObjectArnPrefix(bucket) && '*' !in BucketArn(bucket);
    assert ObjectsArn(bucket) == ObjectArnPrefix(bucket) + "*";
    MatchesPrefixStar(ObjectArnPrefix(bucket), resource);
    MatchesLiteral(BucketArn(bucket), resource);
  }

  /** Against `*`-free patterns, some pattern matches exactly when the string is one of them. */
  lemma AnyLiteralMatches(patterns: seq<string>, s: string)
    requires forall p :: p in patterns ==> '*' !in p
    ensures AnyMatches(patterns, s) <==> s in patterns
  {
    if s in patterns {
      MatchesLiteral(s, s);
    }
    if AnyMatches(patterns, s) {
      var p :| p in patterns && Matches(p, s);
      MatchesLiteral(p, s);
    }
  }

  lemma AnyMatchesPair(a: string, b: string, s: string)
    ensures AnyMatches([a, b], s) <==> Matches(a, s) || Matches(b, s)
  {
    if Matches(b, s) {
      assert [a, b][1] == b;
    }
  }

  /** A document made of one Allow statement allows exactly what that statement applies to. */
  lemma SingleAllowStatement(doc: PolicyDocument, who: string, action: string, resource: string)
    requires |doc.statements| == 1 && doc.statements[0].effect == Allow
    ensures Allows(doc, who, action, resource) <==> Applies(doc.statements[0], who, action, resource)
  {
    var st := doc.statements[0];
    assert forall s :: s in doc.statements ==> s == st;
    if Applies(st, who, action, resource) {
      assert Grants(st, Allow, who, action, resource);
    }
  }

  // ---------------------------------------------------------------------
  // The builders
  // ---------------------------------------------------------------------

  /** Anyone may read any object of the bucket. */
  function PublicReadPolicy(bucket: string): (doc: PolicyDocument)
    ensures WellFormed(doc) && |doc.statements| == 1
    ensures doc.statements[0].sid == Some(PublicReadSid)
  {
    PolicyDocument(PolicyVersion,
      [Statement(Some(PublicReadSid), Allow, "*", One(GetObject), One(ObjectsArn(bucket)))])
  }

  /** Anyone may put, read and delete objects and their ACLs in the bucket. */
  function MultiplePolicy(bucket: string): (doc: PolicyDocument)
    ensures WellFormed(doc) && |doc.statements| == 1
    ensures doc.statements[0].sid.None?
  {
    PolicyDocument(PolicyVersion,
      [Statement(None, Allow, "*", Many(MultipleActions), Many([BucketArn(bucket), ObjectsArn(bucket)]))])
  }

  /** The public-read document built for static websites, with the action written as a one-element list. */
  function WebsitePolicy(bucket: string): (doc: PolicyDocument)
    ensures WellFormed(doc) && |doc.statements| == 1
    ensures doc.statements[0].action == Many([GetObject])
  {
    PolicyDocument(PolicyVersion,
      [Statement(Some(PublicReadSid), Allow, "*", Many([GetObject]), One(ObjectsArn(bucket)))])
  }

  /** The public-read document lets everyone get exactly the bucket's objects, and nothing else. */
  lemma PublicReadPolicyGrants(bucket: string, who: string, action: string, resource: string)
    requires '*' !in bucket
    ensures Allows(PublicReadPolicy(bucket), who, action, resource)
        <==> action == GetObject && ObjectArnPrefix(bucket) <= resource
  {
    var st := PublicReadPolicy(bucket).statements[0];
    SingleAllowStatement(PublicReadPolicy(bucket), who, action, resource);
    ObjectsArnMatches(bucket, resource);
    MatchesLiteral(GetObject, action);
    assert Items(st.action) == [GetObject] && Items(st.resource) == [ObjectsArn(bucket)];
    if action == GetObject && ObjectArnPrefix(bucket) <= resource {
      assert Matches(GetObject, action) && Matches(ObjectsArn(bucket), resource);
    }
  }

  /** The multiple-actions document lets everyone perform exactly the five listed actions on the bucket and its objects. */
  lemma MultiplePolicyGrants(bucket: string, who: string, action: string, resource: string)
    requires '*' !in bucket
    ensures Allows(MultiplePolicy(bucket), who, action, resource)
        <==> action in MultipleActions
             && (resource == BucketArn(bucket) || ObjectArnPrefix(bucket) <= resource)
  {
    var st := MultiplePolicy(bucket).statements[0];
    SingleAllowStatement(MultiplePolicy(bucket), who, action, resource);
    assert Items(st.action) == MultipleActions;
    MultipleActionsMatch(action);
    assert Items(st.resource) == [BucketArn(bucket), ObjectsArn(bucket)];
    BucketAndObjectsMatch(bucket, resource);
  }

  lemma MultipleActionsMatch(action: string)
    ensures AnyMatches(MultipleActions, action) <==> action in MultipleActions
  {
    assert forall p :: p in MultipleActions ==> '*' !in p;
    AnyLiteralMatches(MultipleActions, action);
  }

  lemma BucketAndObjectsMatch(bucket: string, resource: string)
    requires '*' !in bucket
    ensures AnyMatches([BucketArn(bucket), ObjectsArn(bucket)], resource)
        <==> resource == BucketArn(bucket) || ObjectArnPrefix(bucket) <= resource
  {
    AnyMatchesPair(BucketArn(bucket), ObjectsArn(bucket), resource);
    ObjectsArnMatches(bucket, resource);
  }

  /** The website document allows exactly what the public-read document allows. */
  lemma WebsitePolicyIsPublicRead(bucket: string, who: string, action: string, resource: string)
    ensures Allows(WebsitePolicy(bucket), who, action, resource)
        <==> Allows(PublicReadPolicy(bucket), who, action, resource)
  {
    var st := WebsitePolicy(bucket).statements[0];
    var pr := PublicReadPolicy(bucket).statements[0];
    SingleAllowStatement(WebsitePolicy(bucket), who, action, resource);
    SingleAllowStatement(PublicReadPolicy(bucket), who, action, resource);
    assert Items(st.action) == Items(pr.action) && Items(st.resource) == Items(pr.resource);
  }

  // ---------------------------------------------------------------------
  // Requests and their results
  // ---------------------------------------------------------------------

  datatype Request =
    | PutBucketPolicy(bucket: string, policy: PolicyDocument)
    | GetBucketPolicy(bucket: string)
    | PutBucketLifecycle(bucket: string, config: LifecycleConfiguration)

  /** The document chosen by name; unknown names choose none. */
  function ChosenPolicy(name: string, bucket: string): (doc: Option<PolicyDocument>)
    ensures doc.Some? <==> name == "public_read_policy" || name == "multiple_policy"
    ensures doc.Some? ==> WellFormed(doc.value)
  {
    if name == "public_read_policy" then Some(PublicReadPolicy(bucket))
    else if name == "multiple_policy" then Some(MultiplePolicy(bucket))
    else None
  }

  /**
   * Assign the policy named `name` to the bucket; `put` is what the service
   * answers to the put request. An unknown name sends nothing; a failing put
   * propagates its exception.
   */
  function AssignPolicy(name: string, bucket: string, put: Outcome<()>): (r: Run<Request, ()>)
    ensures |r.requests| <= 1
    ensures r.requests == [] <==> ChosenPolicy(name, bucket).None?
    ensures r.requests != [] ==> r.requests[0] == PutBucketPolicy(bucket, ChosenPolicy(name, bucket).value)
    ensures r.result.Raised? <==> r.requests != [] && put.Raised?
  {
    match ChosenPolicy(name, bucket)
    case None => Run([], Returned(()))
    case Some(doc) => Run([PutBucketPolicy(bucket, doc)], put)
  }

  /** Whichever known name is given, the assigned document lets everyone read every object of the bucket. */
  lemma AssignedPolicyAllowsPublicRead(name: string, bucket: string, put: Outcome<()>, who: string, key: string)
    requires '*' !in bucket
    requires AssignPolicy(name, bucket, put).requests != []
    ensures Allows(AssignPolicy(name, bucket, put).requests[0].policy, who, GetObject, ObjectArnPrefix(bucket) + key)
  {
    var resource := ObjectArnPrefix(bucket) + key;
    assert ObjectArnPrefix(bucket) <= resource;
    if name == "public_read_policy" {
      PublicReadPolicyGrants(bucket, who, GetObject, resource);
    } else {
      assert GetObject in MultipleActions;
      MultiplePolicyGrants(bucket, who, GetObject, resource);
    }
  }

  /** Only the multiple-actions policy lets anyone write objects. */
  lemma OnlyMultiplePolicyAllowsPut(name: string, bucket: string, put: Outcome<()>, who: string, key: string)
    requires '*' !in bucket
    requires AssignPolicy(name, bucket, put).requests != []
    ensures Allows(AssignPolicy(name, bucket, put).requests[0].policy, who, "s3:PutObject", ObjectArnPrefix(bucket) + key)
        <==> name == "multiple_policy"
  {
    var resource := ObjectArnPrefix(bucket) + key;
    assert ObjectArnPrefix(bucket) <= resource;
    if name == "public_read_policy" {
      PublicReadPolicyGrants(bucket, who, "s3:PutObject", resource);
    } else {
      assert "s3:PutObject" in MultipleActions;
      MultiplePolicyGrants(bucket, who, "s3:PutObject", resource);
    }
  }

  /** The reply to a get-bucket-policy request: its HTTP status code and the policy text. */
  datatype PolicyReply = PolicyReply(status: int, policy: string)

  /**
   * Read the bucket's policy: the policy text when the status is 200, `None`
   * (the source's False) for any other status; a failing request propagates.
   */
  function ReadBucketPolicy(bucket: string, reply: Outcome<PolicyReply>): (r: Run<Request, Option<string>>)
    ensures r.requests == [GetBucketPolicy(bucket)]
    ensures r.result.Raised? <==> reply.Raised?
    ensures r.result.Returned? ==> (r.result.value.Some? <==> reply.value.status == 200)
    ensures r.result.Returned? && r.result.value.Some? ==> r.result.value.value == reply.value.policy
  {
    var result :=
      match reply
      case Raised => Raised
      case Returned(answer) => Returned(if answer.status == 200 then Some(answer.policy) else None);
    Run([GetBucketPolicy(bucket)], result)
  }

  /**
   * Put the website policy; the result is true exactly when the put did not
   * raise, and no exception escapes.
   */
  function SetWebsitePolicy(bucket: string, put: Outcome<()>): (r: Run<Request, bool>)
    ensures r.requests == [PutBucketPolicy(bucket, WebsitePolicy(bucket))]
    ensures r.result.Returned? && (r.result.value <==> put.Returned?)
  {
    Run([PutBucketPolicy(bucket, WebsitePolicy(bucket))], Returned(put.Returned?))
  }

  // ---------------------------------------------------------------------
  // Lifecycle rule
  // ---------------------------------------------------------------------

  const DefaultExpirationDays := 120

  datatype RuleStatus = Enabled | Disabled

  datatype LifecycleRule = LifecycleRule(expirationDays: int, id: string, status: RuleStatus, prefix: string)

  datatype LifecycleConfiguration = LifecycleConfiguration(rules: seq<LifecycleRule>)

  const RuleIdHead := "Delete objects after "
  const RuleIdTail := " days"

  function DigitChar(d: nat): (c: char)
    requires d < 10
    ensures '0' <= c <= '9'
  {
    ('0' as int + d) as char
  }

  /** The decimal numeral of `n`, without leading zeros. */
  function NatString(n: nat): (s: string)
    ensures |s| >= 1 && '0' <= s[0] <= '9'
    decreases n
  {
    if n < 10 then [DigitChar(n)] else NatString(n / 10) + [DigitChar(n % 10)]
  }

  /** The decimal numeral of `d`, with a leading '-' when it is negative (Python's `str` of an int). */
  function IntString(d: int): (s: string)
    ensures |s| >= 1
  {
    if d < 0 then "-" + NatString(-d) else NatString(d)
  }

  /** The value of a non-empty string of decimal digits; None for anything else. */
  function ParseDigits(s: string): Option<nat>
  {
    if s == [] || !('0' <= s[|s| - 1] <= '9') then None
    else
      var last := s[|s| - 1] as int - '0' as int;
      if |s| == 1 then Some(last)
      else match ParseDigits(s[..|s| - 1])
        case None => None
        case Some(v) => Some(v * 10 + last)
  }

  /** The integer an optionally '-'-signed decimal numeral denotes; None for anything else. */
  function ParseInt(s: string): Option<int>
  {
    if |s| >= 1 && s[0] == '-' then
      match ParseDigits(s[1..])
      case None => None
      case Some(v) => Some(0 - v)
    else
      match ParseDigits(s)
      case None => None
      case Some(v) => Some(v)
  }

  lemma {:induction false} NatStringParses(n: nat)
    ensures ParseDigits(NatString(n)) == Some(n)
    decreases n
  {
    if n >= 10 {
      var s := NatString(n);
      assert s[..|s| - 1] == NatString(n / 10);
      NatStringParses(n / 10);
    }
  }

  lemma ParseSigned(digits: string, n: nat)
    requires ParseDigits(digits) == Some(n)
    ensures ParseInt("-" + digits) == Some(0 - n)
  {
    assert ("-" + digits)[1..] == digits;
  }

  lemma ParseUnsigned(digits: string, n: nat)
    requires ParseDigits(digits) == Some(n) && '0' <= digits[0] <= '9'
    ensures ParseInt(digits) == Some(n)
  {
  }

  /** Parsing a numeral gives back the integer it was printed from. */
  lemma IntStringRoundTrip(d: int)
    ensures ParseInt(IntString(d)) == Some(d)
  {
    if d < 0 {
      NatStringParses(-d);
      ParseSigned(NatString(-d), -d);
    } else {
      NatStringParses(d);
      ParseUnsigned(NatString(d), d);
    }
  }

  /** The rule ID names the number of days. */
  function RuleId(days: int): (id: string)
    ensures RuleIdHead <= id
    ensures |id| > |RuleIdHead| + |RuleIdTail| && id[|id| - |RuleIdTail|..] == RuleIdTail
  {
    RuleIdHead + IntString(days) + RuleIdTail
  }

  function ParseRuleId(id: string): Option<int>
  {
    if |id| >= |RuleIdHead| + |RuleIdTail| && RuleIdHead <= id && id[|id| - |RuleIdTail|..] == RuleIdTail
    then ParseInt(id[|RuleIdHead|..|id| - |RuleIdTail|])
    else None
  }

  /** The number of days can be read back from the rule ID. */
  lemma RuleIdRoundTrip(days: int)
    ensures ParseRuleId(RuleId(days)) == Some(days)
  {
    var id := RuleId(days);
    assert id[|RuleIdHead|..|id| - |RuleIdTail|] == IntString(days);
    IntStringRoundTrip(days);
  }

  /** Different expiry periods give different rule IDs. */
  lemma RuleIdInjective(d1: int, d2: int)
    ensures RuleId(d1) == RuleId(d2) ==> d1 == d2
  {
    RuleIdRoundTrip(d1);
    RuleIdRoundTrip(d2);
  }

  /** The one rule set by the source: enabled, for every key, expiring after `days`. */
  function LifecycleConfig(days: int): (config: LifecycleConfiguration)
    ensures |config.rules| == 1
    ensures config.rules[0].id == RuleId(days)
  {
    LifecycleConfiguration([LifecycleRule(days, RuleId(days), Enabled, "")])
  }

  /** With no number of days given, the rule expires objects after 120 days and says so in its ID. */
  lemma DefaultLifecycleRule()
    ensures LifecycleConfig(DefaultExpirationDays).rules
            == [LifecycleRule(120, "Delete objects after 120 days", Enabled, "")]
  {
    assert DigitChar(0) == '0' && DigitChar(1) == '1' && DigitChar(2) == '2';
    assert NatString(120) == NatString(12) + ['0'] == NatString(1) + ['2'] + ['0'] == "120";
    assert RuleId(120) == RuleIdHead + "120" + RuleIdTail == "Delete objects after 120 days";
  }

  /** An object with key `key`, `age` days old, is deleted by some enabled rule of the configuration. */
  predicate Expires(config: LifecycleConfiguration, key: string, age: int)
  {
    exists rule :: rule in config.rules && rule.status == Enabled && rule.prefix <= key && age >= rule.expirationDays
  }

  /** The configuration deletes every object, whatever its key, once it is `days` old, and none earlier. */
  lemma LifecycleConfigExpires(days: int, key: string, age: int)
    ensures Expires(LifecycleConfig(days), key, age) <==> age >= days
  {
    var rule := LifecycleConfig(days).rules[0];
    assert rule.prefix <= key;
  }

  /**
   * Set the lifecycle configuration; `put` is the HTTP status of the reply.
   * The result is true exactly when the status is 200; a failing put gives
   * false, and no exception escapes.
   */
  function SetLifecyclePolicy(bucket: string, days: int, put: Outcome<int>): (r: Run<Request, bool>)
    ensures r.requests == [PutBucketLifecycle(bucket, LifecycleConfig(days))]
    ensures r.result.Returned? && (r.result.value <==> put == Returned(200))
  {
    var ok := match put
      case Raised => false
      case Returned(status) => status == 200;
    Run([PutBucketLifecycle(bucket, LifecycleConfig(days))], Returned(ok))
  }
}
