/** The enterprise function registry of src/enterprise/EnterpriseManager.ts: a
    `Map` from function id to its description, filled in table order when the
    manager is built, whose entries can be activated and then executed. */
module Enterprise {
  import opened Wrappers
  import opened OrderedMaps

  datatype Category = Communication | Productivity | Analysis | Management | Integration

  function CategoryName(c: Category): string {
    match c
    case Communication => "communication"
    case Productivity => "productivity"
    case Analysis => "analysis"
    case Management => "management"
    case Integration => "integration"
  }

  datatype Status = Active | Inactive | Developing

  datatype EnterpriseFunction = EnterpriseFunction(
    id: string, name: string, icon: string, description: string,
    category: Category, status: Status, dependencies: seq<string>)

  datatype ExecutionResult =
    | ChatReply(response: string, timestamp: string)
    | Completed(status: string, message: string)

  /** The twelve functions the manager registers, in registration order; every one
      starts out in development. */
  const Catalogue: seq<EnterpriseFunction> := [
    EnterpriseFunction("ai-chat", "AI智能对话", "💬", "基于腾讯云LLM的智能对话助手",
      Communication, Developing, ["tencent-cloud-llm"]),
    EnterpriseFunction("email-management", "邮件智能管理", "📧", "智能邮件分类、回复、日程安排",
      Communication, Developing, ["tencent-cloud-llm", "email-api"]),
    EnterpriseFunction("project-management", "项目管理系统", "📋", "项目跟踪、任务分配、进度监控",
      Management, Developing, ["workflow-engine", "data-storage"]),
    EnterpriseFunction("data-analysis", "数据分析平台", "📊", "实时数据分析、可视化、预测建模",
      Analysis, Developing, ["rag-system", "visualization-engine"]),
    EnterpriseFunction("financial-management", "财务管理助手", "💰", "财务分析、预算管理、智能报销",
      Management, Developing, ["rag-system", "workflow-engine"]),
    EnterpriseFunction("hr-management", "人力资源系统", "👥", "招聘管理、绩效分析、培训规划",
      Management, Developing, ["rag-system", "workflow-engine"]),
    EnterpriseFunction("crm-system", "客户关系管理", "🤝", "客户画像、销售预测、营销自动化",
      Management, Developing, ["rag-system", "workflow-engine"]),
    EnterpriseFunction("supply-chain", "供应链管理", "🚚", "库存优化、需求预测、供应商管理",
      Management, Developing, ["rag-system", "workflow-engine"]),
    EnterpriseFunction("business-intelligence", "商业智能分析", "🧠", "异常检测、因果分析、决策支持",
      Analysis, Developing, ["rag-system", "ml-models"]),
    EnterpriseFunction("workflow-automation", "流程自动化", "🤖", "RPA部署、工作流优化、智能编排",
      Productivity, Developing, ["workflow-engine", "mcp-plugins"]),
    EnterpriseFunction("risk-management", "风险管理", "🔒", "实时监控、预测预警、合规检查",
      Management, Developing, ["rag-system", "ml-models"]),
    EnterpriseFunction("system-integration", "系统集成", "🌐", "ERP/CRM连接、云服务管理、API编排",
      Integration, Developing, ["mcp-plugins", "api-gateway"])
  ]

  const EmailDone: string := "邮件操作完成"
  const ProjectDone: string := "项目管理操作完成"
  const AnalysisDone: string := "数据分析完成"

  function Ids(fs: seq<EnterpriseFunction>): (r: seq<string>)
    ensures |r| == |fs| && forall i :: 0 <= i < |fs| ==> r[i] == fs[i].id
  {
    seq(|fs|, i requires 0 <= i < |fs| => fs[i].id)
  }

  /** The key order after `fs.forEach(f => map.set(f.id, f))` on an empty map. */
  function RegisteredOrder(fs: seq<EnterpriseFunction>): seq<string> {
    if fs == [] then [] else KeysAfterSet(RegisteredOrder(fs[..|fs| - 1]), fs[|fs| - 1].id)
  }

  /** The entries after the same loop. */
  function Registered(fs: seq<EnterpriseFunction>): map<string, EnterpriseFunction> {
    if fs == [] then map[] else Registered(fs[..|fs| - 1])[fs[|fs| - 1].id := fs[|fs| - 1]]
  }

  /** The last id of a table without repeats does not occur before it. */
  lemma LastIdIsNew(fs: seq<EnterpriseFunction>)
    requires fs != [] && Distinct(Ids(fs))
    ensures Ids(fs[..|fs| - 1]) == Ids(fs)[..|fs| - 1]
    ensures Distinct(Ids(fs[..|fs| - 1]))
    ensures fs[|fs| - 1].id !in Ids(fs[..|fs| - 1])
    ensures Ids(fs) == Ids(fs[..|fs| - 1]) + [fs[|fs| - 1].id]
  {
    var init := fs[..|fs| - 1];
    assert Ids(init) == Ids(fs)[..|fs| - 1];
    forall i | 0 <= i < |init| ensures Ids(init)[i] != fs[|fs| - 1].id {
      assert Ids(fs)[i] != Ids(fs)[|fs| - 1];
    }
  }

  /** With distinct ids, the loop keeps the table's order. */
  lemma {:induction false} RegisteredOrderIsTable(fs: seq<EnterpriseFunction>)
    requires Distinct(Ids(fs))
    ensures RegisteredOrder(fs) == Ids(fs)
    ensures Consistent(RegisteredOrder(fs), Registered(fs))
  {
    if fs != [] {
      var init := fs[..|fs| - 1];
      var last := fs[|fs| - 1];
      LastIdIsNew(fs);
      RegisteredOrderIsTable(init);
      SetKeepsConsistent(RegisteredOrder(init), Registered(init), last.id, last);
    }
  }

  /** With distinct ids, the loop stores every function under its own id. */
  lemma {:induction false} RegisteredIsTable(fs: seq<EnterpriseFunction>)
    requires Distinct(Ids(fs))
    ensures RegisteredOrder(fs) == Ids(fs)
    ensures Consistent(RegisteredOrder(fs), Registered(fs))
    ensures forall i :: 0 <= i < |fs| ==> Registered(fs)[fs[i].id] == fs[i]
  {
    RegisteredOrderIsTable(fs);
    if fs != [] {
      var init := fs[..|fs| - 1];
      LastIdIsNew(fs);
      RegisteredIsTable(init);
      forall i | 0 <= i < |fs| - 1 ensures Registered(fs)[fs[i].id] == fs[i] {
        assert fs[i] == init[i];
        assert Ids(fs)[i] != Ids(fs)[|fs| - 1];
      }
    }
  }

  lemma CatalogueShape()
    ensures |Catalogue| == 12 && Distinct(Ids(Catalogue))
    ensures forall f :: f in Catalogue ==> f.status == Developing
  {
  }

  /** `Array.from(map.values()).filter(func => func.category === category)`. */
  function InCategory(fs: seq<EnterpriseFunction>, category: string): (r: seq<EnterpriseFunction>)
    ensures |r| <= |fs|
  {
    if fs == [] then []
    else (if CategoryName(fs[0].category) == category then [fs[0]] else []) + InCategory(fs[1..], category)
  }

  lemma {:induction false} InCategoryIff(fs: seq<EnterpriseFunction>, category: string, f: EnterpriseFunction)
    ensures f in InCategory(fs, category) <==> f in fs && CategoryName(f.category) == category
  {
    if fs != [] {
      InCategoryIff(fs[1..], category, f);
      assert fs == [fs[0]] + fs[1..];
    }
  }

  /** Which functions `executeFunction` dispatches to a handler. */
  predicate Implemented(id: string) {
    id == "ai-chat" || id == "email-management" || id == "project-management" || id == "data-analysis"
  }

  class EnterpriseManager {
    var order: seq<string>
    var functions: map<string, EnterpriseFunction>

    ghost predicate Valid()
      reads this
    {
      Consistent(order, functions) && forall id :: id in functions ==> functions[id].id == id
    }

    /** `new EnterpriseManager(config)`: registers the catalogue. The configuration
        is kept but never read, so it is not modelled. */
    constructor()
      ensures Valid()
      ensures order == Ids(Catalogue) && functions == Registered(Catalogue)
      ensures forall i :: 0 <= i < |Catalogue| ==> functions[Catalogue[i].id] == Catalogue[i]
    {
      order := [];
      functions := map[];
      new;
      RegisterAll(Catalogue);
      CatalogueShape();
      RegisteredIsTable(Catalogue);
    }

    /** The registration loop of the constructor, over any table. */
    method RegisterAll(fs: seq<EnterpriseFunction>)
      modifies this
      requires order == [] && functions == map[]
      ensures order == RegisteredOrder(fs) && functions == Registered(fs)
    {
      for i := 0 to |fs|
        invariant order == RegisteredOrder(fs[..i]) && functions == Registered(fs[..i])
      {
        var f := fs[i];
        assert fs[..i + 1][..i] == fs[..i] && fs[..i + 1][i] == f;
        order := KeysAfterSet(order, f.id);
        functions := functions[f.id := f];
      }
      assert fs[..|fs|] == fs;
    }

    /** `getFunctions()`: every registered function, in registration order. */
    function GetFunctions(): (r: seq<EnterpriseFunction>)
      reads this
      requires Valid()
      ensures |r| == |order|
      ensures forall f :: f in r <==> f in functions.Values
    {
      var r := Values(order, functions);
      assert forall f :: f in functions.Values ==> f in r by {
        forall f | f in functions.Values ensures f in r {
          var id :| id in functions && functions[id] == f;
          var i :| 0 <= i < |order| && order[i] == id;
          assert r[i] == f;
        }
      }
      r
    }

    /** `getFunctionsByCategory(category)`: the registered functions of that
        category, in registration order. */
    function GetFunctionsByCategory(category: string): (r: seq<EnterpriseFunction>)
      reads this
      requires Valid()
      ensures forall f :: f in r <==> f in functions.Values && CategoryName(f.category) == category
    {
      var r := InCategory(GetFunctions(), category);
      assert forall f :: f in r <==> f in GetFunctions() && CategoryName(f.category) == category by {
        forall f ensures f in r <==> f in GetFunctions() && CategoryName(f.category) == category {
          InCategoryIff(GetFunctions(), category, f);
        }
      }
      r
    }

    /** `getFunction(id)`. */
    function GetFunction(id: string): (r: Option<EnterpriseFunction>)
      reads this
      ensures r.Some? <==> id in functions
      ensures r.Some? ==> r.value == functions[id]
    {
      if id in functions then Some(functions[id]) else None
    }

    /** `activateFunction(id)`: false for an unknown id; otherwise the dependency
        check passes and the function becomes active, keeping its place. */
    method ActivateFunction(id: string) returns (ok: bool)
      modifies this
      requires Valid()
      ensures Valid()
      ensures ok <==> id in old(functions)
      ensures !ok ==> functions == old(functions)
      ensures ok ==> functions == Activated(old(functions), id)
      ensures order == old(order)
    {
      if id !in functions {
        return false;
      }
      var f := functions[id];
      var met := CheckDependencies(f.dependencies);
      if !met {
        return false;
      }
      SetKeepsConsistent(order, functions, id, f.(status := Active));
      functions := functions[id := f.(status := Active)];
      order := KeysAfterSet(order, id);
      return true;
    }

    /** `executeFunction(id, params)`: fails unless the function is registered and
        active; otherwise runs one of the four implemented handlers and fails for
        the rest. `message` is the `params.message` text (absent reads as
        `undefined`), `now` the ISO time stamp the chat handler reports. */
    function ExecuteFunction(id: string, message: Option<string>, now: string): (r: Result<ExecutionResult, string>)
      reads this
      ensures r.Ok? <==> id in functions && functions[id].status == Active && Implemented(id)
      ensures r.Ok? && id == "ai-chat" ==>
        r.value == ChatReply("AI回复: " + (if message.Some? then message.value else "undefined"), now)
      ensures r.Ok? && id != "ai-chat" ==> r.value.Completed? && r.value.status == "success"
      ensures r.Ok? && id == "email-management" ==> r.value.message == EmailDone
      ensures r.Ok? && id == "project-management" ==> r.value.message == ProjectDone
      ensures r.Ok? && id == "data-analysis" ==> r.value.message == AnalysisDone
      ensures (id !in functions || functions[id].status != Active) ==>
                r == Err("Function " + id + " is not available")
      ensures id in functions && functions[id].status == Active && !Implemented(id) ==>
                r == Err("Function " + id + " not implemented")
    {
      if id !in functions || functions[id].status != Active then Err("Function " + id + " is not available")
      else if id == "ai-chat" then Ok(ChatReply("AI回复: " + (if message.Some? then message.value else "undefined"), now))
      else if id == "email-management" then Ok(Completed("success", EmailDone))
      else if id == "project-management" then Ok(Completed("success", ProjectDone))
      else if id == "data-analysis" then Ok(Completed("success", AnalysisDone))
      else Err("Function " + id + " not implemented")
    }
  }

  /** The registry after a successful `activateFunction(id)`. */
  function Activated(functions: map<string, EnterpriseFunction>, id: string): (r: map<string, EnterpriseFunction>)
    requires id in functions
    ensures r.Keys == functions.Keys && r[id].status == Active
    ensures forall other :: other in functions && other != id ==> r[other] == functions[other]
  {
    functions[id := functions[id].(status := Active)]
  }

  /** Activating twice is activating once. */
  lemma ActivationIdempotent(functions: map<string, EnterpriseFunction>, id: string)
    requires id in functions
    ensures Activated(Activated(functions, id), id) == Activated(functions, id)
  {
  }

  /** `checkDependencies`: accepts every dependency list. */
  method CheckDependencies(dependencies: seq<string>) returns (met: bool)
    ensures met
  {
    return true;
  }

  /** Every registered entry comes from the table. */
  lemma {:induction false} RegisteredFromTable(fs: seq<EnterpriseFunction>, id: string)
    requires id in Registered(fs)
    ensures Registered(fs)[id] in fs
  {
    var init := fs[..|fs| - 1];
    if id != fs[|fs| - 1].id {
      RegisteredFromTable(init, id);
      assert forall f :: f in init ==> f in fs;
    }
  }

  /** Nothing can be executed before it is activated: a freshly built manager
      refuses every id. */
  lemma NothingRunsUntilActivated(m: EnterpriseManager, id: string, message: Option<string>, now: string)
    requires m.functions == Registered(Catalogue)
    ensures m.ExecuteFunction(id, message, now) == Err("Function " + id + " is not available")
  {
    CatalogueShape();
    if id in m.functions {
      RegisteredFromTable(Catalogue, id);
    }
  }
}
