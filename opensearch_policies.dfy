/**
 * The OpenSearch Serverless requests the vectorization service builds: the
 * encryption, network and data-access security policies, the collection
 * request, the knn index body, and the shaping of similarity-search hits.
 * The policy documents are modelled by their structure; the client calls that
 * send them are not part of this model.
 */
module OpenSearchPolicies {
  import opened Wrappers

  /** One rule of a policy: a resource type, resource patterns and (data-access rules only) permissions. */
  datatype Rule = Rule(resourceType: string, resource: seq<string>, permission: Option<seq<string>>)

  /** One statement of a network policy. */
  datatype NetworkStatement = NetworkStatement(description: string, sourceVpces: seq<Option<string>>, rules: seq<Rule>, allowFromPublic: bool)

  /** One statement of a data-access policy. */
  datatype AccessStatement = AccessStatement(rules: seq<Rule>, principal: seq<string>)

  /** A policy document. */
  datatype Policy =
    | EncryptionDocument(encryptionRules: seq<Rule>, awsOwnedKey: bool)
    | NetworkDocument(networkStatements: seq<NetworkStatement>)
    | AccessDocument(accessStatements: seq<AccessStatement>)

  /** A create_security_policy / create_access_policy request. */
  datatype PolicyRequest = PolicyRequest(name: string, policyType: string, description: string, policy: Policy)

  /** The index permissions the data-access template grants. */
  const IndexPermissions: seq<string> := ["aoss:CreateIndex", "aoss:DeleteIndex", "aoss:UpdateIndex",
                                          "aoss:DescribeIndex", "aoss:ReadDocument", "aoss:WriteDocument"]

  /** create_encryption_policy: one collection rule on the pattern, with an AWS-owned key. */
  function EncryptionPolicy(name: string, description: string, collectionPattern: string): (r: PolicyRequest)
    ensures r.name == name && r.policyType == "encryption" && r.description == description
    ensures r.policy.EncryptionDocument? && r.policy.awsOwnedKey
    ensures forall rule :: rule in Rules(r.policy) ==> rule.resourceType == "collection" && rule.resource == ["collection/" + collectionPattern]
  {
    PolicyRequest(name, "encryption", description,
      EncryptionDocument([Rule("collection", ["collection/" + collectionPattern], None)], true))
  }

  /** create_network_policy: one statement with the endpoint, a dashboard and a collection rule on the pattern. */
  function NetworkPolicy(name: string, description: string, collectionPattern: string, allowPublic: bool, vpceId: Option<string>): (r: PolicyRequest)
    ensures r.name == name && r.policyType == "network" && r.description == description
    ensures forall rule :: rule in Rules(r.policy) ==>
      rule.resourceType in {"dashboard", "collection"} && rule.resource == ["collection/" + collectionPattern]
  {
    var st := NetworkStatement(description, [vpceId],
      [Rule("dashboard", ["collection/" + collectionPattern], None), Rule("collection", ["collection/" + collectionPattern], None)],
      allowPublic);
    assert NetworkRules([st]) == st.rules + NetworkRules([]);
    PolicyRequest(name, "network", description, NetworkDocument([st]))
  }

  /**
   * create_data_access_policy: the template with its placeholders filled in, a collection
   * rule on collection/P and an index rule on every index under P, granted to the role.  index_name
   * is accepted and not used.
   */
  function DataAccessPolicy(name: string, description: string, collectionPattern: string, indexName: string, roleArn: string): (r: PolicyRequest)
    ensures r.name == name && r.policyType == "data" && r.description == description
    ensures forall rule :: rule in Rules(r.policy) ==> rule.resourceType in {"collection", "index"} && rule.permission.Some?
  {
    var st := AccessStatement(
      [Rule("collection", ["collection/" + collectionPattern], Some(["aoss:UpdateCollectionItems"])),
       Rule("index", ["index/" + collectionPattern + "/*"], Some(IndexPermissions))],
      [roleArn]);
    assert AccessRules([st]) == st.rules + AccessRules([]);
    PolicyRequest(name, "data", description, AccessDocument([st]))
  }

  function NetworkRules(statements: seq<NetworkStatement>): seq<Rule>
  {
    if statements == [] then [] else statements[0].rules + NetworkRules(statements[1..])
  }

  function AccessRules(statements: seq<AccessStatement>): seq<Rule>
  {
    if statements == [] then [] else statements[0].rules + AccessRules(statements[1..])
  }

  /** Every rule of a policy document. */
  function Rules(p: Policy): seq<Rule>
  {
    match p
    case EncryptionDocument(rules, _) => rules
    case NetworkDocument(statements) => NetworkRules(statements)
    case AccessDocument(statements) => AccessRules(statements)
  }

  /** A resource pattern names the target: a trailing '*' stands for any suffix, otherwise the names are equal. */
  predicate GlobMatches(pattern: string, target: string)
  {
    if |pattern| > 0 && pattern[|pattern| - 1] == '*' then pattern[..|pattern| - 1] <= target
    else pattern == target
  }

  /** Some rule of the policy, of the given resource type, has a pattern naming the target. */
  predicate Grants(p: Policy, resourceType: string, target: string)
  {
    exists r, pattern :: r in Rules(p) && r.resourceType == resourceType && pattern in r.resource && GlobMatches(pattern, target)
  }

  /** A collection named name + anything is covered by the encryption policy on name + "*", and nothing else is. */
  lemma EncryptionCovers(name: string, description: string, suffix: string, target: string)
    ensures Grants(EncryptionPolicy(name + "-ep", description, name + "*").policy, "collection", "collection/" + name + suffix)
    ensures Grants(EncryptionPolicy(name + "-ep", description, name + "*").policy, "collection", target) ==> "collection/" + name <= target
    ensures !Grants(EncryptionPolicy(name + "-ep", description, name + "*").policy, "index", target)
  {
    var p := EncryptionPolicy(name + "-ep", description, name + "*").policy;
    var r := Rules(p)[0];
    var pattern := "collection/" + name + "*";
    assert pattern == r.resource[0];
    assert pattern[..|pattern| - 1] == "collection/" + name;
    assert GlobMatches(pattern, "collection/" + name + suffix);
  }

  /** The network policy on name + "*" opens both the collection and its dashboard, and only names with that prefix. */
  lemma NetworkCovers(name: string, description: string, vpceId: Option<string>, suffix: string, target: string)
    ensures var p := NetworkPolicy(name + "-np", description, name + "*", false, vpceId).policy;
      Grants(p, "collection", "collection/" + name + suffix) &&
      Grants(p, "dashboard", "collection/" + name + suffix) &&
      (Grants(p, "collection", target) || Grants(p, "dashboard", target) ==> "collection/" + name <= target)
    ensures var p := NetworkPolicy(name + "-np", description, name + "*", false, vpceId).policy;
      p.networkStatements[0].sourceVpces == [vpceId] && !p.networkStatements[0].allowFromPublic
  {
    var p := NetworkPolicy(name + "-np", description, name + "*", false, vpceId).policy;
    var rules := Rules(p);
    assert p.networkStatements[1..] == [] && NetworkRules(p.networkStatements[1..]) == [];
    assert rules == p.networkStatements[0].rules + [];
    assert rules == p.networkStatements[0].rules;
    var pattern := "collection/" + name + "*";
    assert pattern == rules[0].resource[0] && pattern == rules[1].resource[0];
    assert pattern[..|pattern| - 1] == "collection/" + name;
    assert GlobMatches(pattern, "collection/" + name + suffix);
  }

  /**
   * The data-access policy on the bare name grants the role the collection itself and every
   * index inside it, and nothing outside it (for a name that does not itself end in a wildcard).
   */
  lemma DataAccessCovers(name: string, description: string, roleArn: string, indexName: string, target: string)
    requires name == [] || name[|name| - 1] != '*'
    ensures var p := DataAccessPolicy(name + "-dp", description, name, "", roleArn).policy;
      Grants(p, "collection", "collection/" + name) &&
      Grants(p, "index", "index/" + name + "/" + indexName) &&
      (Grants(p, "collection", target) ==> target == "collection/" + name) &&
      (Grants(p, "index", target) ==> "index/" + name + "/" <= target) &&
      p.accessStatements[0].principal == [roleArn]
  {
    var p := DataAccessPolicy(name + "-dp", description, name, "", roleArn).policy;
    var rules := Rules(p);
    assert p.accessStatements[1..] == [] && AccessRules(p.accessStatements[1..]) == [];
    assert rules == p.accessStatements[0].rules + [];
    assert rules == p.accessStatements[0].rules;
    assert GlobMatches(rules[0].resource[0], "collection/" + name);
    var pattern := "index/" + name + "/*";
    assert pattern == rules[1].resource[0];
    assert pattern[..|pattern| - 1] == "index/" + name + "/";
    assert GlobMatches(pattern, "index/" + name + "/" + indexName);
    if Grants(p, "collection", target) {
      var r, q :| r in rules && r.resourceType == "collection" && q in r.resource && GlobMatches(q, target);
      assert r == rules[0];
    }
  }

  // ---------------------------------------------------------------------
  // Collections and indexes.
  // ---------------------------------------------------------------------

  /** A create_collection request. */
  datatype CollectionRequest = CollectionRequest(name: string, description: string, standbyReplicas: string,
                                                 tags: seq<map<string, string>>, collectionType: string)

  /** create_collection: tags default to [] (`tags or []`), and the type is always VECTORSEARCH. */
  function CreateCollection(name: string, description: string, standbyReplicas: string, tags: Option<seq<map<string, string>>>): (r: CollectionRequest)
    ensures r.collectionType == "VECTORSEARCH" && r.name == name
    ensures r.tags == (if tags.Some? then tags.value else [])
  {
    CollectionRequest(name, description, standbyReplicas, if tags.Some? && tags.value != [] then tags.value else [], "VECTORSEARCH")
  }

  /** One field mapping of an index: its name, type and (knn vectors only) dimension. */
  datatype FieldMapping = FieldMapping(field: string, fieldType: string, dimension: Option<int>)

  /** An index body: the index.knn setting and the field mappings. */
  datatype IndexBody = IndexBody(knn: bool, properties: seq<FieldMapping>)

  const VectorDimension: int := 1536

  /** The body create_index sends. */
  const KnnIndexBody: IndexBody :=
    IndexBody(true, [FieldMapping("vector_field", "knn_vector", Some(VectorDimension)), FieldMapping("text", "text", None)])

  /** The indexes of a collection after create_index: a new knn index only when none of that name exists. */
  function CreateIndex(indexes: map<string, IndexBody>, indexName: string): (r: map<string, IndexBody>)
    ensures r.Keys == indexes.Keys + {indexName}
    ensures forall n :: n in indexes ==> r[n] == indexes[n]
  {
    if indexName in indexes then indexes else indexes[indexName := KnnIndexBody]
  }

  /**
   * create_index leaves an existing index as it is and otherwise adds a knn index with a
   * 1536-dimension vector field and a text field; calling it again changes nothing.
   */
  lemma CreateIndexFacts(indexes: map<string, IndexBody>, indexName: string)
    ensures var r := CreateIndex(indexes, indexName);
      indexName in r && r.Keys == indexes.Keys + {indexName} &&
      (forall n :: n in indexes ==> r[n] == indexes[n]) &&
      (indexName !in indexes ==> r[indexName].knn && r[indexName].properties[0] == FieldMapping("vector_field", "knn_vector", Some(1536)) &&
                                 r[indexName].properties[1].fieldType == "text") &&
      CreateIndex(r, indexName) == r
  {
  }

  // ---------------------------------------------------------------------
  // Similarity search.
  // ---------------------------------------------------------------------

  /** similarity_search's result: one {"text": page_content} per hit, in hit order. */
  function SimilarityResults(hits: seq<string>): (r: seq<map<string, string>>)
    ensures |r| == |hits|
  {
    if hits == [] then [] else [map["text" := hits[0]]] + SimilarityResults(hits[1..])
  }

  /** Each result holds exactly the key "text", and reading the texts back gives the hits in order. */
  lemma {:induction false} SimilarityTexts(hits: seq<string>)
    ensures forall i :: 0 <= i < |hits| ==>
      SimilarityResults(hits)[i].Keys == {"text"} && SimilarityResults(hits)[i]["text"] == hits[i]
  {
    if hits != [] {
      SimilarityTexts(hits[1..]);
      var r := SimilarityResults(hits);
      forall i | 0 <= i < |hits| ensures r[i].Keys == {"text"} && r[i]["text"] == hits[i] {
        if i > 0 {
          assert r[i] == SimilarityResults(hits[1..])[i - 1];
        }
      }
    }
  }
}
