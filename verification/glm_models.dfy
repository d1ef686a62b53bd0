/** The GLM proxy's model list: the four supported models, the `/v1/models`
    reply that lists them, the check a requested model id must pass and the
    default model. */
module GlmModels {
  import opened Json

  datatype ModelInfo = ModelInfo(id: string, name: string, kind: string, ownedBy: string, description: string)

  const Owner: string := "glm-free-api"

  const SupportedModels: seq<ModelInfo> := [
    ModelInfo("glm-4.6", "GLM-4.6", "model", Owner, "高智能旗舰 - 智谱最强性能，高级编码能力、强大推理以及工具调用能力"),
    ModelInfo("glm-4.5", "GLM-4.5", "model", Owner, "超强性能 - 性能优秀，强大的推理能力、代码生成能力以及工具调用能力"),
    ModelInfo("glm-4.5-x", "GLM-4.5-X", "model", Owner, "超强性能-极速版 - 推理速度更快，适用于搜索问答、智能助手、实时翻译等时效性较强场景"),
    ModelInfo("glm-4.5-air", "GLM-4.5-Air", "model", Owner, "高性价比 - 在推理、编码和智能体任务上表现强劲")
  ]

  const DefaultModel: string := "glm-4.6"

  /** The ids a request may name. */
  const ValidIds: set<string> := {"glm-4.6", "glm-4.5", "glm-4.5-x", "glm-4.5-air"}

  /** `models.some(m => m.id === id)`. */
  function AnyId(models: seq<ModelInfo>, id: string): (r: bool)
    ensures r <==> exists k :: 0 <= k < |models| && models[k].id == id
  {
    if |models| == 0 then false
    else if models[0].id == id then true
    else
      assert forall k :: 1 <= k < |models| ==> models[k] == models[1..][k - 1];
      AnyId(models[1..], id)
  }

  predicate IsValidModel(modelId: string) {
    AnyId(SupportedModels, modelId)
  }

  /** A model id is valid exactly when it is one of the four ids, compared
      exactly: display names and other spellings are not accepted. */
  lemma ValidIffListed(modelId: string)
    ensures IsValidModel(modelId) <==> modelId in ValidIds
  {
    if IsValidModel(modelId) {
      var k :| 0 <= k < |SupportedModels| && SupportedModels[k].id == modelId;
      assert k == 0 || k == 1 || k == 2 || k == 3;
    } else {
      assert SupportedModels[0].id == "glm-4.6";
      assert SupportedModels[1].id == "glm-4.5";
      assert SupportedModels[2].id == "glm-4.5-x";
      assert SupportedModels[3].id == "glm-4.5-air";
    }
  }

  /** The comparison is on `id` and is case-sensitive, so a model's display
      name is not a valid id. */
  lemma DisplayNameInvalid()
    ensures !IsValidModel("GLM-4.6") && !IsValidModel("GLM-4.5-Air")
  {
    ValidIffListed("GLM-4.6");
    ValidIffListed("GLM-4.5-Air");
    assert "GLM-4.6"[0] == 'G' && "GLM-4.5-Air"[0] == 'G';
  }

  /** The default model passes the check. */
  lemma DefaultIsValid()
    ensures IsValidModel(DefaultModel)
  {
    assert SupportedModels[0].id == DefaultModel;
  }

  function ModelJson(m: ModelInfo): (r: Json)
    ensures r.JObj? && |r.fields| == 5 && r.fields[0] == Field("id", JStr(m.id))
  {
    JObj([Field("id", JStr(m.id)), Field("name", JStr(m.name)), Field("object", JStr(m.kind)),
          Field("owned_by", JStr(m.ownedBy)), Field("description", JStr(m.description))])
  }

  /** `GET /v1/models`: `{data: SUPPORTED_MODELS}`, every model in order. */
  function ListModels(): (r: Json)
    ensures r.JObj? && |r.fields| == 1 && r.fields[0].key == "data"
    ensures r.fields[0].value.JArr? && |r.fields[0].value.items| == |SupportedModels|
    ensures forall k :: 0 <= k < |SupportedModels| ==> r.fields[0].value.items[k] == ModelJson(SupportedModels[k])
  {
    JObj([Field("data", JArr(seq(|SupportedModels|, k requires 0 <= k < |SupportedModels| => ModelJson(SupportedModels[k]))))])
  }

  /** Every id the list shows is accepted, and only those. */
  lemma ListedIdsValid(id: string)
    ensures IsValidModel(id) <==> exists k :: 0 <= k < |ListModels().fields[0].value.items| && ListModels().fields[0].value.items[k].fields[0] == Field("id", JStr(id))
  {
    var items := ListModels().fields[0].value.items;
    forall k | 0 <= k < |items|
      ensures (items[k].fields[0] == Field("id", JStr(id))) == (SupportedModels[k].id == id)
    {
      assert items[k] == ModelJson(SupportedModels[k]);
    }
  }
}
