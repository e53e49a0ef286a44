/**
 * The search-index schema that `GetSampleIndex` builds: six fields, two of them vector fields
 * bound to one vector profile, that profile bound to one HNSW algorithm configuration, and one
 * semantic configuration.
 */
module IndexSchema {
  import opened Values

  /** Dimension of the embedding model's vectors. */
  const ModelDimensions: nat := 1536
  const SemanticSearchConfigName: string := "my-semantic-config"
  const VectorSearchProfileName: string := "my-vector-profile"
  const VectorSearchHnswConfigName: string := "my-hnsw-vector-config"

  /** `SearchFieldDataType.String` and `SearchFieldDataType.Collection(SearchFieldDataType.Single)`. */
  datatype DataType = EdmString | SingleCollection

  datatype SearchField = SearchField(
    name: string,
    dataType: DataType,
    isKey: bool,
    isFilterable: bool,
    isSortable: bool,
    isFacetable: bool,
    isSearchable: bool,
    vectorSearchDimensions: Option<nat>,
    vectorSearchProfile: Option<string>)

  datatype VectorSearchProfile = VectorSearchProfile(name: string, algorithmConfigurationName: string)

  /** An HNSW configuration; its tuning parameters are never set by the program. */
  datatype VectorSearchAlgorithmConfiguration = HnswConfiguration(name: string)

  datatype VectorSearch = VectorSearch(
    profiles: seq<VectorSearchProfile>,
    algorithms: seq<VectorSearchAlgorithmConfiguration>)

  datatype PrioritizedFields = PrioritizedFields(
    titleField: Option<string>,
    contentFields: seq<string>,
    keywordFields: seq<string>)

  datatype SemanticConfiguration = SemanticConfiguration(name: string, prioritizedFields: PrioritizedFields)

  datatype SearchIndex = SearchIndex(
    name: string,
    fields: seq<SearchField>,
    vectorSearch: VectorSearch,
    semanticConfigurations: seq<SemanticConfiguration>)

  // ---------------------------------------------------------------------------------------
  // The SDK's field helpers. Every flag not set by an initialiser is false.

  /** `new SimpleField(name, type)`: not searchable. */
  function SimpleField(name: string, dataType: DataType): SearchField
  {
    SearchField(name, dataType, false, false, false, false, false, None, None)
  }

  /** `new SearchableField(name)`: a searchable string field. */
  function SearchableField(name: string): SearchField
  {
    SimpleField(name, EdmString).(isSearchable := true)
  }

  // ---------------------------------------------------------------------------------------
  // Name resolution inside an index.

  predicate Distinct(names: seq<string>)
  {
    forall i, j :: 0 <= i < j < |names| ==> names[i] != names[j]
  }

  /** Position of the first occurrence of `name`, or |names| when there is none. */
  function IndexOf(names: seq<string>, name: string): (i: nat)
    ensures i <= |names|
    ensures i < |names| ==> names[i] == name
    ensures forall j :: 0 <= j < i ==> names[j] != name
  {
    if |names| == 0 then 0
    else if names[0] == name then 0
    else 1 + IndexOf(names[1..], name)
  }

  /** Among distinct names, a name is found at its own position. */
  lemma IndexOfDistinct(names: seq<string>, j: nat)
    requires Distinct(names) && j < |names|
    ensures IndexOf(names, names[j]) == j
  {
  }

  function FieldNames(fields: seq<SearchField>): (r: seq<string>)
    ensures |r| == |fields| && forall i :: 0 <= i < |fields| ==> r[i] == fields[i].name
  {
    seq(|fields|, i requires 0 <= i < |fields| => fields[i].name)
  }

  // The index's four kinds of named declarations are distinct datatypes with no common supertype,
  // so each kind has its own list of names.

  function ProfileNames(profiles: seq<VectorSearchProfile>): (r: seq<string>)
    ensures |r| == |profiles| && forall i :: 0 <= i < |profiles| ==> r[i] == profiles[i].name
  {
    seq(|profiles|, i requires 0 <= i < |profiles| => profiles[i].name)
  }

  function AlgorithmNames(algorithms: seq<VectorSearchAlgorithmConfiguration>): (r: seq<string>)
    ensures |r| == |algorithms| && forall i :: 0 <= i < |algorithms| ==> r[i] == algorithms[i].name
  {
    seq(|algorithms|, i requires 0 <= i < |algorithms| => algorithms[i].name)
  }

  function ConfigurationNames(configurations: seq<SemanticConfiguration>): (r: seq<string>)
    ensures |r| == |configurations| && forall i :: 0 <= i < |configurations| ==> r[i] == configurations[i].name
  {
    seq(|configurations|, i requires 0 <= i < |configurations| => configurations[i].name)
  }

  /** A field called `name`, if the index declares one. */
  function FindField(idx: SearchIndex, name: string): (r: Option<SearchField>)
    ensures r.Some? ==> r.value in idx.fields && r.value.name == name
    ensures r.None? ==> forall f :: f in idx.fields ==> f.name != name
  {
    var i := IndexOf(FieldNames(idx.fields), name);
    if i < |idx.fields| then Some(idx.fields[i]) else None
  }

  /** A vector profile called `name`, if the index declares one. */
  function FindProfile(idx: SearchIndex, name: string): (r: Option<VectorSearchProfile>)
    ensures r.Some? ==> r.value in idx.vectorSearch.profiles && r.value.name == name
    ensures r.None? ==> forall p :: p in idx.vectorSearch.profiles ==> p.name != name
  {
    var i := IndexOf(ProfileNames(idx.vectorSearch.profiles), name);
    if i < |idx.vectorSearch.profiles| then Some(idx.vectorSearch.profiles[i]) else None
  }

  /** An algorithm configuration called `name`, if the index declares one. */
  function FindAlgorithm(idx: SearchIndex, name: string): (r: Option<VectorSearchAlgorithmConfiguration>)
    ensures r.Some? ==> r.value in idx.vectorSearch.algorithms && r.value.name == name
    ensures r.None? ==> forall a :: a in idx.vectorSearch.algorithms ==> a.name != name
  {
    var i := IndexOf(AlgorithmNames(idx.vectorSearch.algorithms), name);
    if i < |idx.vectorSearch.algorithms| then Some(idx.vectorSearch.algorithms[i]) else None
  }

  /** A semantic configuration called `name`, if the index declares one. */
  function FindConfiguration(idx: SearchIndex, name: string): (r: Option<SemanticConfiguration>)
    ensures r.Some? ==> r.value in idx.semanticConfigurations && r.value.name == name
    ensures r.None? ==> forall c :: c in idx.semanticConfigurations ==> c.name != name
  {
    var i := IndexOf(ConfigurationNames(idx.semanticConfigurations), name);
    if i < |idx.semanticConfigurations| then Some(idx.semanticConfigurations[i]) else None
  }

  /** Every name listed is the name of a declared field. */
  predicate DeclaresFields(idx: SearchIndex, names: seq<string>)
  {
    |names| == 0 || (FindField(idx, names[0]).Some? && DeclaresFields(idx, names[1..]))
  }

  /** `DeclaresFields` holds exactly when every listed name is a declared field. */
  lemma {:induction false} DeclaresFieldsMembers(idx: SearchIndex, names: seq<string>)
    ensures DeclaresFields(idx, names) <==> forall n :: n in names ==> FindField(idx, n).Some?
  {
    if |names| > 0 {
      DeclaresFieldsMembers(idx, names[1..]);
      assert names == [names[0]] + names[1..];
    }
  }

  /** The algorithm configuration that a profile reference leads to, if both links resolve. */
  function ResolveProfile(idx: SearchIndex, profile: string): Option<VectorSearchAlgorithmConfiguration>
  {
    match FindProfile(idx, profile)
    case None => None
    case Some(p) => FindAlgorithm(idx, p.algorithmConfigurationName)
  }

  /** Names of the key fields, in declaration order. */
  function KeyFieldNames(fields: seq<SearchField>): seq<string>
  {
    if |fields| == 0 then []
    else (if fields[0].isKey then [fields[0].name] else []) + KeyFieldNames(fields[1..])
  }

  /** A name is listed by `KeyFieldNames` exactly when some key field carries it. */
  lemma {:induction false} KeyFieldNamesMembers(fields: seq<SearchField>)
    ensures forall n :: n in KeyFieldNames(fields) <==> exists f :: f in fields && f.isKey && f.name == n
  {
    if |fields| > 0 {
      KeyFieldNamesMembers(fields[1..]);
      assert fields == [fields[0]] + fields[1..];
    }
  }

  /** Names of the fields that carry a vector profile, in declaration order. */
  function VectorFieldNames(fields: seq<SearchField>): seq<string>
  {
    if |fields| == 0 then []
    else (if fields[0].vectorSearchProfile.Some? then [fields[0].name] else []) + VectorFieldNames(fields[1..])
  }

  /** A name is listed by `VectorFieldNames` exactly when some field with a vector profile carries it. */
  lemma {:induction false} VectorFieldNamesMembers(fields: seq<SearchField>)
    ensures forall n :: n in VectorFieldNames(fields) <==>
      exists f :: f in fields && f.vectorSearchProfile.Some? && f.name == n
  {
    if |fields| > 0 {
      VectorFieldNamesMembers(fields[1..]);
      assert fields == [fields[0]] + fields[1..];
    }
  }

  /** A field the semantic ranker may read: a declared, searchable string field. */
  predicate IsTextField(idx: SearchIndex, name: string)
  {
    match FindField(idx, name)
    case None => false
    case Some(f) => f.dataType == EdmString && f.isSearchable
  }

  // ---------------------------------------------------------------------------------------
  // What a usable schema satisfies.

  /** Every declaration kind has distinct names, so every reference resolves to exactly one declaration. */
  predicate NamesDistinct(idx: SearchIndex)
  {
    && Distinct(FieldNames(idx.fields))
    && Distinct(ProfileNames(idx.vectorSearch.profiles))
    && Distinct(AlgorithmNames(idx.vectorSearch.algorithms))
    && Distinct(ConfigurationNames(idx.semanticConfigurations))
  }

  /** Exactly one key field, and it holds strings. */
  predicate SingleStringKey(idx: SearchIndex)
  {
    && |KeyFieldNames(idx.fields)| == 1
    && forall f :: f in idx.fields && f.isKey ==> f.dataType == EdmString
  }

  /** A field has a dimension exactly when it has a profile, and only float collections have either. */
  predicate VectorFieldsShaped(idx: SearchIndex)
  {
    forall f :: f in idx.fields ==>
      && (f.vectorSearchProfile.Some? <==> f.vectorSearchDimensions.Some?)
      && (f.vectorSearchProfile.Some? ==> f.dataType == SingleCollection)
  }

  /** Every vector field names a declared profile, and every profile names a declared algorithm. */
  predicate ReferencesResolve(idx: SearchIndex)
  {
    && (forall f :: f in idx.fields && f.vectorSearchProfile.Some? ==>
          FindProfile(idx, f.vectorSearchProfile.value).Some?)
    && (forall p :: p in idx.vectorSearch.profiles ==>
          FindAlgorithm(idx, p.algorithmConfigurationName).Some?)
  }

  /** Every field a semantic configuration names is a declared searchable string field. */
  predicate SemanticFieldsResolve(idx: SearchIndex)
  {
    forall c :: c in idx.semanticConfigurations ==>
      && (c.prioritizedFields.titleField.Some? ==> IsTextField(idx, c.prioritizedFields.titleField.value))
      && (forall n :: n in c.prioritizedFields.contentFields ==> IsTextField(idx, n))
      && (forall n :: n in c.prioritizedFields.keywordFields ==> IsTextField(idx, n))
  }

  predicate WellFormed(idx: SearchIndex)
  {
    && NamesDistinct(idx)
    && SingleStringKey(idx)
    && VectorFieldsShaped(idx)
    && ReferencesResolve(idx)
    && SemanticFieldsResolve(idx)
  }

  /**
   * In a well-formed index, each vector field's profile reference leads to exactly one profile
   * and from it to exactly one algorithm configuration.
   */
  lemma VectorFieldResolvesUniquely(idx: SearchIndex, f: SearchField)
    requires WellFormed(idx)
    requires f in idx.fields && f.vectorSearchProfile.Some?
    ensures ResolveProfile(idx, f.vectorSearchProfile.value).Some?
    ensures forall j :: 0 <= j < |idx.vectorSearch.profiles| && idx.vectorSearch.profiles[j].name == f.vectorSearchProfile.value ==>
              FindProfile(idx, f.vectorSearchProfile.value) == Some(idx.vectorSearch.profiles[j])
    ensures forall j ::
              (0 <= j < |idx.vectorSearch.algorithms| &&
               idx.vectorSearch.algorithms[j].name == FindProfile(idx, f.vectorSearchProfile.value).value.algorithmConfigurationName)
              ==> ResolveProfile(idx, f.vectorSearchProfile.value) == Some(idx.vectorSearch.algorithms[j])
  {
    var profiles, algorithms := idx.vectorSearch.profiles, idx.vectorSearch.algorithms;
    var p := FindProfile(idx, f.vectorSearchProfile.value).value;
    forall j | 0 <= j < |profiles| && profiles[j].name == f.vectorSearchProfile.value
      ensures FindProfile(idx, f.vectorSearchProfile.value) == Some(profiles[j])
    {
      IndexOfDistinct(ProfileNames(profiles), j);
    }
    forall j | 0 <= j < |algorithms| && algorithms[j].name == p.algorithmConfigurationName
      ensures ResolveProfile(idx, f.vectorSearchProfile.value) == Some(algorithms[j])
    {
      IndexOfDistinct(AlgorithmNames(algorithms), j);
    }
  }

  // ---------------------------------------------------------------------------------------
  // The schema itself.

  const IdField: SearchField :=
    SimpleField("id", EdmString).(isKey := true, isFilterable := true, isSortable := true, isFacetable := true)
  const TitleField: SearchField := SearchableField("title").(isFilterable := true, isSortable := true)
  const ContentField: SearchField := SearchableField("content").(isFilterable := true)
  const TitleVectorField: SearchField :=
    SearchField("titleVector", SingleCollection, false, false, false, false, true,
                Some(ModelDimensions), Some(VectorSearchProfileName))
  const ContentVectorField: SearchField :=
    SearchField("contentVector", SingleCollection, false, false, false, false, true,
                Some(ModelDimensions), Some(VectorSearchProfileName))
  const CategoryField: SearchField :=
    SearchableField("category").(isFilterable := true, isSortable := true, isFacetable := true)

  /** The index the program creates or updates, under the caller's name. */
  function GetSampleIndex(name: string): (idx: SearchIndex)
    ensures idx.name == name
    ensures |idx.fields| == 6 && |idx.vectorSearch.profiles| == 1 && |idx.vectorSearch.algorithms| == 1
    ensures |idx.semanticConfigurations| == 1
  {
    SearchIndex(
      name,
      [IdField, TitleField, ContentField, TitleVectorField, ContentVectorField, CategoryField],
      VectorSearch(
        [VectorSearchProfile(VectorSearchProfileName, VectorSearchHnswConfigName)],
        [HnswConfiguration(VectorSearchHnswConfigName)]),
      [SemanticConfiguration(SemanticSearchConfigName,
         PrioritizedFields(Some("title"), ["content"], ["category"]))])
  }

  /** The five flags of a field. */
  datatype FieldFlags = FieldFlags(key: bool, filterable: bool, sortable: bool, facetable: bool, searchable: bool)

  /** The flags of the field called `name`, if the index declares one. */
  function FlagsOf(idx: SearchIndex, name: string): Option<FieldFlags>
  {
    match FindField(idx, name)
    case None => None
    case Some(f) => Some(FieldFlags(f.isKey, f.isFilterable, f.isSortable, f.isFacetable, f.isSearchable))
  }

  /** The six sample field names are pairwise distinct. */
  lemma SampleFieldNamesDistinct(name: string)
    ensures FieldNames(GetSampleIndex(name).fields) == ["id", "title", "content", "titleVector", "contentVector", "category"]
    ensures Distinct(FieldNames(GetSampleIndex(name).fields))
  {
    var names := FieldNames(GetSampleIndex(name).fields);
    assert names == ["id", "title", "content", "titleVector", "contentVector", "category"];
  }

  /** Looking a sample field up by its name finds that field. */
  lemma SampleFieldLookup(name: string)
    ensures var idx := GetSampleIndex(name);
      && FindField(idx, "id") == Some(IdField)
      && FindField(idx, "title") == Some(TitleField)
      && FindField(idx, "content") == Some(ContentField)
      && FindField(idx, "titleVector") == Some(TitleVectorField)
      && FindField(idx, "contentVector") == Some(ContentVectorField)
      && FindField(idx, "category") == Some(CategoryField)
  {
    var fs := GetSampleIndex(name).fields;
    SampleFieldNamesDistinct(name);
    IndexOfDistinct(FieldNames(fs), 0);
    IndexOfDistinct(FieldNames(fs), 1);
    IndexOfDistinct(FieldNames(fs), 2);
    IndexOfDistinct(FieldNames(fs), 3);
    IndexOfDistinct(FieldNames(fs), 4);
    IndexOfDistinct(FieldNames(fs), 5);
  }

  /** Exactly two fields carry a vector profile: `titleVector` and `contentVector`, in that order. */
  lemma SampleVectorFieldNames(name: string)
    ensures VectorFieldNames(GetSampleIndex(name).fields) == ["titleVector", "contentVector"]
  {
    var fs := GetSampleIndex(name).fields;
    assert VectorFieldNames(fs[5..]) == [];
    assert VectorFieldNames(fs[4..]) == ["contentVector"];
    assert VectorFieldNames(fs[3..]) == ["titleVector", "contentVector"];
    assert VectorFieldNames(fs[2..]) == ["titleVector", "contentVector"];
    assert VectorFieldNames(fs[1..]) == ["titleVector", "contentVector"];
  }

  /** Every vector field has the model's 1536 dimensions and the one vector profile. */
  lemma SampleVectorFieldsShaped(name: string)
    ensures var idx := GetSampleIndex(name);
      && VectorFieldsShaped(idx)
      && (forall f :: f in idx.fields && f.vectorSearchProfile.Some? ==>
           && f.vectorSearchDimensions == Some(ModelDimensions)
           && f.vectorSearchProfile == Some(VectorSearchProfileName))
  {
  }

  /** The one profile leads to the one HNSW configuration. */
  lemma SampleProfileResolution(name: string)
    ensures var idx := GetSampleIndex(name);
      && |idx.vectorSearch.profiles| == 1
      && |idx.vectorSearch.algorithms| == 1
      && ResolveProfile(idx, VectorSearchProfileName) == Some(HnswConfiguration(VectorSearchHnswConfigName))
  {
    var idx := GetSampleIndex(name);
    assert ProfileNames(idx.vectorSearch.profiles) == [VectorSearchProfileName];
    assert AlgorithmNames(idx.vectorSearch.algorithms) == [VectorSearchHnswConfigName];
  }


  /** Exactly one field of the sample index is a key: `id`. */
  lemma SampleIndexKey(name: string)
    ensures KeyFieldNames(GetSampleIndex(name).fields) == ["id"]
    ensures SingleStringKey(GetSampleIndex(name))
  {
    var fs := GetSampleIndex(name).fields;
    assert KeyFieldNames(fs[5..]) == [];
    assert KeyFieldNames(fs[4..]) == [];
    assert KeyFieldNames(fs[3..]) == [];
    assert KeyFieldNames(fs[2..]) == [];
    assert KeyFieldNames(fs[1..]) == [];
  }

  /** Title, content and category, the fields the searches select, are declared. */
  lemma SampleDeclaresFields(name: string)
    ensures DeclaresFields(GetSampleIndex(name), ["title", "content", "category"])
  {
    var idx := GetSampleIndex(name);
    SampleFieldLookup(name);
    assert DeclaresFields(idx, ["category"]);
    assert DeclaresFields(idx, ["content", "category"]);
  }


  /** The title, content and keyword fields of the semantic configuration are searchable string fields. */
  lemma SampleSemanticFieldsResolve(name: string)
    ensures SemanticFieldsResolve(GetSampleIndex(name))
  {
    var idx := GetSampleIndex(name);
    SampleFieldLookup(name);
    assert IsTextField(idx, "title") && IsTextField(idx, "content") && IsTextField(idx, "category");
  }

  /** The schema is well formed: names distinct, one string key, every profile and algorithm reference resolves. */
  lemma SampleIndexWellFormed(name: string)
    ensures GetSampleIndex(name).name == name
    ensures WellFormed(GetSampleIndex(name))
  {
    var idx := GetSampleIndex(name);
    SampleFieldNamesDistinct(name);
    SampleVectorFieldsShaped(name);
    SampleProfileResolution(name);
    SampleIndexKey(name);
    SampleSemanticFieldsResolve(name);
    assert NamesDistinct(idx);
    assert VectorFieldsShaped(idx);
    assert ReferencesResolve(idx);
  }

  /** Only `id` is a key, and each field carries exactly the flags its initialiser sets. */
  lemma SampleIndexFieldFlags(name: string)
    ensures var idx := GetSampleIndex(name);
      && KeyFieldNames(idx.fields) == ["id"]
      && FlagsOf(idx, "id") == Some(FieldFlags(key := true, filterable := true, sortable := true, facetable := true, searchable := false))
      && FlagsOf(idx, "title") == Some(FieldFlags(key := false, filterable := true, sortable := true, facetable := false, searchable := true))
      && FlagsOf(idx, "content") == Some(FieldFlags(key := false, filterable := true, sortable := false, facetable := false, searchable := true))
      && FlagsOf(idx, "titleVector") == Some(FieldFlags(key := false, filterable := false, sortable := false, facetable := false, searchable := true))
      && FlagsOf(idx, "contentVector") == Some(FieldFlags(key := false, filterable := false, sortable := false, facetable := false, searchable := true))
      && FlagsOf(idx, "category") == Some(FieldFlags(key := false, filterable := true, sortable := true, facetable := true, searchable := true))
  {
    SampleIndexKey(name);
    SampleFieldLookup(name);
  }

  /** One semantic configuration: title `title`, content fields exactly [content], keywords exactly [category]. */
  lemma SampleIndexSemanticConfiguration(name: string)
    ensures var idx := GetSampleIndex(name);
      && ConfigurationNames(idx.semanticConfigurations) == [SemanticSearchConfigName]
      && var fields := idx.semanticConfigurations[0].prioritizedFields;
         fields.titleField == Some("title") && fields.contentFields == ["content"] && fields.keywordFields == ["category"]
  {
  }
}
