/** The `order` field of the services directory: within each category the
    services are listed by rank 1..n. */
module ServiceOrder {
  import opened Common

  function CategoryOf(d: Document): Value
  {
    if "category" in d then d["category"] else Null
  }

  function OrderOf(d: Document): Value
  {
    if "order" in d then d["order"] else Null
  }

  /** The `order` fields of the documents of one category, in list order. */
  function OrdersIn(ds: seq<Document>, category: Value): seq<Value>
  {
    if ds == [] then []
    else (if CategoryOf(ds[0]) == category then [OrderOf(ds[0])] else []) + OrdersIn(ds[1..], category)
  }

  /** The orders are exactly 1, 2, ..., n, in that order. */
  predicate IsRanking(orders: seq<Value>)
  {
    forall i :: 0 <= i < |orders| ==> orders[i] == Int(i + 1)
  }

  lemma {:induction false} OrdersInConcat(a: seq<Document>, b: seq<Document>, category: Value)
    ensures OrdersIn(a + b, category) == OrdersIn(a, category) + OrdersIn(b, category)
  {
    if a == [] {
      assert a + b == b;
    } else {
      assert (a + b)[0] == a[0];
      assert (a + b)[1..] == a[1..] + b;
      OrdersInConcat(a[1..], b, category);
    }
  }

  /** In a list whose documents are ranked 1..n in one category, that
      category's orders are a ranking and every other category has none. */
  lemma {:induction false} OrdersInRankedGroup(g: seq<Document>, groupCategory: Value, category: Value, first: nat)
    requires forall i :: 0 <= i < |g| ==> CategoryOf(g[i]) == groupCategory && OrderOf(g[i]) == Int(first + i)
    ensures category != groupCategory ==> OrdersIn(g, category) == []
    ensures category == groupCategory ==>
      |OrdersIn(g, category)| == |g| && forall i :: 0 <= i < |g| ==> OrdersIn(g, category)[i] == Int(first + i)
  {
    if g != [] {
      OrdersInRankedGroup(g[1..], groupCategory, category, first + 1);
    }
  }

  predicate RankedIn(g: seq<Document>, category: Value)
  {
    forall i :: 0 <= i < |g| ==> CategoryOf(g[i]) == category && OrderOf(g[i]) == Int(1 + i)
  }

  predicate InCategories(ds: seq<Document>, categories: set<Value>)
  {
    forall i :: 0 <= i < |ds| ==> CategoryOf(ds[i]) in categories
  }

  lemma {:induction false} OrdersInAbsent(ds: seq<Document>, category: Value)
    requires forall i :: 0 <= i < |ds| ==> CategoryOf(ds[i]) != category
    ensures OrdersIn(ds, category) == []
  {
    if ds != [] {
      OrdersInAbsent(ds[1..], category);
    }
  }

  /** Appending a group ranked in a category the list does not use yet
      keeps every category's orders a ranking. */
  lemma AppendRankedGroup(prefix: seq<Document>, categories: set<Value>, g: seq<Document>, groupCategory: Value, category: Value)
    requires InCategories(prefix, categories) && groupCategory !in categories
    requires IsRanking(OrdersIn(prefix, category))
    requires RankedIn(g, groupCategory)
    ensures IsRanking(OrdersIn(prefix + g, category))
    ensures InCategories(prefix + g, categories + {groupCategory})
  {
    OrdersInConcat(prefix, g, category);
    OrdersInRankedGroup(g, groupCategory, category, 1);
    if category == groupCategory {
      OrdersInAbsent(prefix, category);
      assert OrdersIn(prefix + g, category) == OrdersIn(g, category);
    } else {
      assert OrdersIn(prefix + g, category) == OrdersIn(prefix, category);
    }
  }
}

/** Seeding the database with demo content (backend/app/core/init_data.py).

    Each of the blogs, services, events and settings collections is filled
    from its module-level demo list only while it is empty; the about
    collection gets the demo about document only while it has none. Before a
    list is inserted, its dicts are stamped in place with the current time.

    Only the short fields of the demo records are kept: the Markdown bodies
    and excerpts of the blog posts, the long descriptions of the events and
    the import-time `date` fields are left out. */
module InitData {
  import opened Common
  import About
  import opened ServiceOrder

  const CreatedAtKey := "created_at"

  // ------------------------------------------------------------ demo data

  function Strs(ss: seq<string>): (r: seq<Value>)
    ensures |r| == |ss| && forall i :: 0 <= i < |ss| ==> r[i] == Str(ss[i])
  {
    seq(|ss|, i requires 0 <= i < |ss| => Str(ss[i]))
  }

  function Blog(title: string, author: string, readTime: string, category: string, tags: seq<string>): Document
  {
    map["title" := Str(title), "author" := Str(author), "read_time" := Str(readTime),
        "category" := Str(category), "tags" := List(Strs(tags)), "cover" := Str(""),
        "published" := Bool(true)]
  }

  const DemoBlogs: seq<Document> := [
    Blog("Vue 3 组合式 API 深度解析", "张三", "8 分钟", "前端开发", ["Vue", "JavaScript", "前端"]),
    Blog("Linux 服务器性能优化指南", "李四", "12 分钟", "运维技术", ["Linux", "运维", "性能优化"]),
    Blog("Docker 容器化部署实践", "王五", "10 分钟", "运维技术", ["Docker", "容器", "DevOps"]),
    Blog("TypeScript 类型体操技巧", "赵六", "15 分钟", "前端开发", ["TypeScript", "JavaScript", "类型系统"]),
    Blog("Python 异步编程入门", "孙七", "11 分钟", "后端开发", ["Python", "异步编程", "asyncio"]),
    Blog("Git 工作流最佳实践", "周八", "9 分钟", "开发工具", ["Git", "版本控制", "团队协作"])
  ]

  function Service(name: string, description: string, url: string, icon: string, category: string, order: int): (d: Document)
    ensures CategoryOf(d) == Str(category) && OrderOf(d) == Int(order) && "active" in d && d["active"] == Bool(true)
  {
    map["name" := Str(name), "description" := Str(description), "url" := Str(url), "icon" := Str(icon),
        "category" := Str(category), "order" := Int(order), "active" := Bool(true)]
  }

  const LearningPlatforms: seq<Document> := [
    Service("在线课程平台", "在线课程学习、作业提交", "https://online.example.edu", "📚", "学习平台", 1),
    Service("教务管理系统", "选课、课表查询、成绩查询", "https://jwgl.example.edu", "🎓", "学习平台", 2),
    Service("图书馆", "图书检索、数据库访问、座位预约", "https://lib.example.edu", "📖", "学习平台", 3),
    Service("雨课堂", "智慧教学工具平台", "https://yuketang.cn", "☁️", "学习平台", 4)
  ]

  const CampusServices: seq<Document> := [
    Service("校园VPN", "校外访问校内资源", "https://vpn.example.edu", "🔐", "校园服务", 1),
    Service("学校邮箱", "校园邮件服务", "https://mail.example.edu", "✉️", "校园服务", 2),
    Service("校园卡服务", "校园卡查询、充值", "https://card.example.edu", "💳", "校园服务", 3),
    Service("正版软件", "Office、WPS等正版软件下载", "https://software.example.edu", "💿", "校园服务", 4)
  ]

  const DevelopmentTools: seq<Document> := [
    Service("GitHub", "代码托管与协作", "https://github.com", "💻", "开发工具", 1),
    Service("GitLab", "校内Git仓库", "https://gitlab.example.edu", "🦊", "开发工具", 2),
    Service("VS Code", "轻量级代码编辑器", "https://code.visualstudio.com", "📝", "开发工具", 3),
    Service("Stack Overflow", "编程问答社区", "https://stackoverflow.com", "❓", "开发工具", 4)
  ]

  const LearningResources: seq<Document> := [
    Service("课程资料库", "各类课程学习资料", "#", "📁", "学习资源", 1),
    Service("MDN Web Docs", "Web开发权威文档", "https://developer.mozilla.org", "🌐", "学习资源", 2),
    Service("LeetCode", "算法练习平台", "https://leetcode.cn", "🧩", "学习资源", 3)
  ]

  const DemoServices: seq<Document> := LearningPlatforms + CampusServices + DevelopmentTools + LearningResources

  function Event(title: string, location: string, category: string, organizer: string, status: string, maxParticipants: int): Document
  {
    map["title" := Str(title), "location" := Str(location), "category" := Str(category),
        "organizer" := Str(organizer), "status" := Str(status), "max_participants" := Int(maxParticipants),
        "registration_url" := Str(""), "published" := Bool(true)]
  }

  const DemoEvents: seq<Document> := [
    Event("Web 开发技术分享会", "教学楼 A301", "技术分享", "学生网络中心", "upcoming", 50),
    Event("Linux 系统运维工作坊", "实验室 B205", "工作坊", "运维团队", "completed", 30),
    Event("开源项目贡献指南", "线上直播", "讲座", "开源社区", "completed", 100),
    Event("Python 数据分析入门", "计算机楼 C102", "工作坊", "数据科学小组", "upcoming", 40),
    Event("网络安全与隐私保护", "教学楼 A201", "讲座", "安全团队", "completed", 60)
  ]

  function Setting(key: string, value: string, description: string): Document
  {
    map["key" := Str(key), "value" := Str(value), "description" := Str(description)]
  }

  const DemoSettings: seq<Document> := [
    Setting("siteName", "SNC Blog", "网站名称"),
    Setting("siteDescription", "学生网络中心技术博客", "网站描述"),
    Setting("contactEmail", "contact@snc.example.edu", "联系邮箱"),
    Setting("github", "https://github.com/snc-example", "GitHub地址"),
    Setting("wechat", "SNC_Official", "微信公众号"),
    Setting("qq", "123456789", "QQ群号")
  ]

  function Member(name: string, role: string, avatar: string, description: string, skills: seq<string>): Value
  {
    Object(map["name" := Str(name), "role" := Str(role), "avatar" := Str(avatar),
               "description" := Str(description), "skills" := List(Strs(skills))])
  }

  function Milestone(year: string, title: string, description: string): Value
  {
    Object(map["year" := Str(year), "title" := Str(title), "description" := Str(description)])
  }

  function Principle(icon: string, title: string, description: string): Value
  {
    Object(map["icon" := Str(icon), "title" := Str(title), "description" := Str(description)])
  }

  function Stat(caption: string, value: string, icon: string): Value
  {
    Object(map["label" := Str(caption), "value" := Str(value), "icon" := Str(icon)])
  }

  const DemoTeam: seq<Value> := [
    Member("张三", "技术负责人", "👨‍💻", "全栈开发工程师，热爱开源", ["Vue", "Node.js", "Docker"]),
    Member("李四", "运维工程师", "👨‍🔧", "Linux 系统专家", ["Linux", "Kubernetes", "CI/CD"]),
    Member("王五", "前端开发", "👩‍💻", "用户界面设计与开发", ["React", "TypeScript", "UI/UX"]),
    Member("赵六", "后端开发", "👨‍💼", "服务端架构设计", ["Python", "Django", "PostgreSQL"])
  ]

  const DemoTimeline: seq<Value> := [
    Milestone("2020", "社团成立", "学生网络中心正式成立，开始为校园提供网络服务"),
    Milestone("2021", "服务扩展", "推出多项新服务，用户数突破5000+"),
    Milestone("2022", "技术创新", "开源多个项目，举办首届技术分享会"),
    Milestone("2023", "影响力提升", "与多个高校技术社团建立合作关系"),
    Milestone("2024", "持续发展", "服务用户超过10000+，技术团队不断壮大")
  ]

  const DemoValues: seq<Value> := [
    Principle("🎯", "追求卓越", "不断提升技术能力，为用户提供最优质的服务"),
    Principle("🤝", "团队协作", "相互学习，共同成长，打造高效团队"),
    Principle("💡", "创新精神", "勇于尝试新技术，推动校园信息化建设"),
    Principle("🌍", "开源分享", "积极参与开源社区，分享技术经验")
  ]

  const DemoStats: seq<Value> := [
    Stat("服务用户", "10,000+", "👥"),
    Stat("技术文章", "200+", "📝"),
    Stat("举办活动", "50+", "🎪"),
    Stat("开源项目", "30+", "💻")
  ]

  const DemoMission: Value := Object(map[
    "title" := Str("我们的使命"),
    "content" := Str("学生网络中心成立于2020年，是一个由学生自发组织的技术社团。我们的目标是为校园师生提供稳定可靠的网络服务，推动校园信息化建设，培养学生的技术能力和创新精神。通过定期举办技术讲座、工作坊和交流活动，我们为同学们创造了一个学习交流的平台。同时，我们也积极参与开源社区，贡献自己的力量。")
  ])

  const DemoContact: Value := Object(map[
    "email" := Str("contact@snc.example.edu"),
    "github" := Str("https://github.com/snc-example"),
    "wechat" := Str("SNC_Official"),
    "qq" := Str("123456789")
  ])

  const DemoAbout: Document := map[
    "team_members" := List(DemoTeam),
    "timeline" := List(DemoTimeline),
    "values" := List(DemoValues),
    "stats" := List(DemoStats),
    "mission" := DemoMission,
    "contact" := DemoContact
  ]

  // ------------------------------------------------- shape of the demo data

  /** Each demo list has the size the seeding messages report. */
  lemma DemoListSizes()
    ensures |DemoBlogs| == 6 && |DemoServices| == 15 && |DemoEvents| == 5 && |DemoSettings| == 6
  {
  }

  /** The demo about document has every section the about page reads, and
      no `_id` of its own. */
  lemma DemoAboutShape()
    ensures forall s: About.Section :: s.Key() in DemoAbout && DemoAbout[s.Key()].List?
    ensures DemoAbout["team_members"] == List(DemoTeam) && |DemoTeam| == 4
    ensures DemoAbout["timeline"] == List(DemoTimeline) && |DemoTimeline| == 5
    ensures DemoAbout["values"] == List(DemoValues) && |DemoValues| == 4
    ensures DemoAbout["stats"] == List(DemoStats) && |DemoStats| == 4
    ensures About.IdKey !in DemoAbout
  {
  }

  /** No two demo settings share a key. */
  lemma DemoSettingsKeysDistinct()
    ensures forall i, j :: 0 <= i < j < |DemoSettings| ==> DemoSettings[i]["key"] != DemoSettings[j]["key"]
  {
  }

  lemma LearningPlatformsRanked()
    ensures RankedIn(LearningPlatforms, Str("学习平台"))
  {
  }

  lemma CampusServicesRanked()
    ensures RankedIn(CampusServices, Str("校园服务"))
  {
  }

  lemma DevelopmentToolsRanked()
    ensures RankedIn(DevelopmentTools, Str("开发工具"))
  {
  }

  lemma LearningResourcesRanked()
    ensures RankedIn(LearningResources, Str("学习资源"))
  {
  }

  /** Within each service category the demo `order` values run 1..n, in
      list order, without gaps or repeats. */
  lemma DemoServicesRanked()
    ensures forall category :: IsRanking(OrdersIn(DemoServices, category))
  {
    LearningPlatformsRanked();
    CampusServicesRanked();
    DevelopmentToolsRanked();
    LearningResourcesRanked();
    var c1, c2, c3, c4 := Str("学习平台"), Str("校园服务"), Str("开发工具"), Str("学习资源");
    forall category
      ensures IsRanking(OrdersIn(DemoServices, category))
    {
      AppendRankedGroup([], {}, LearningPlatforms, c1, category);
      assert [] + LearningPlatforms == LearningPlatforms;
      AppendRankedGroup(LearningPlatforms, {c1}, CampusServices, c2, category);
      AppendRankedGroup(LearningPlatforms + CampusServices, {c1, c2}, DevelopmentTools, c3, category);
      AppendRankedGroup(LearningPlatforms + CampusServices + DevelopmentTools, {c1, c2, c3}, LearningResources, c4, category);
    }
  }

  /** Every demo service is active. */
  lemma DemoServicesActive()
    ensures forall i :: 0 <= i < |DemoServices| ==> "active" in DemoServices[i] && DemoServices[i]["active"] == Bool(true)
  {
  }

  // ------------------------------------------------------ the seeding rule

  /** `d` with each of `keys` set to the instant `now`, as the stamping
      loops do. */
  function Stamp(d: Document, keys: set<string>, now: int): (r: Document)
    ensures r.Keys == d.Keys + keys
    ensures forall k :: k in keys ==> r[k] == Time(now)
    ensures forall k :: k in d && k !in keys ==> r[k] == d[k]
  {
    map k | k in d.Keys + keys :: if k in keys then Time(now) else d[k]
  }

  function StampAll(ds: seq<Document>, keys: set<string>, now: int): (r: seq<Document>)
    ensures |r| == |ds| && forall i :: 0 <= i < |ds| ==> r[i] == Stamp(ds[i], keys, now)
  {
    seq(|ds|, i requires 0 <= i < |ds| => Stamp(ds[i], keys, now))
  }

  /** The timestamps each collection's documents get. */
  const BlogStamps: set<string> := {CreatedAtKey, About.UpdatedAtKey}
  const ServiceStamps: set<string> := {CreatedAtKey}
  const EventStamps: set<string> := {CreatedAtKey}
  const SettingStamps: set<string> := {About.UpdatedAtKey}

  /** The contents of the five collections. */
  datatype Tables = Tables(blogs: seq<Document>, services: seq<Document>, events: seq<Document>,
                           settings: seq<Document>, about: seq<Document>)

  /** The current contents of the four module-level demo lists. */
  datatype DemoLists = DemoLists(blogs: seq<Document>, services: seq<Document>, events: seq<Document>,
                                 settings: seq<Document>)

  /** The document the about collection is seeded with. */
  function SeededAbout(now: int, aboutId: ObjectId): (d: Document)
    ensures d.Keys == DemoAbout.Keys + {About.UpdatedAtKey, About.IdKey}
    ensures d[About.UpdatedAtKey] == Time(now) && d[About.IdKey] == Oid(aboutId)
    ensures forall k :: k in DemoAbout ==> d[k] == DemoAbout[k]
  {
    DemoAbout[About.UpdatedAtKey := Time(now)][About.IdKey := Oid(aboutId)]
  }

  /** The rule for one collection: only while it is empty, stamp the demo
      list and insert it. Gives the new collection and the new demo list. */
  function SeedOne(table: seq<Document>, demo: seq<Document>, keys: set<string>, now: int): (r: (seq<Document>, seq<Document>))
    ensures table != [] ==> r == (table, demo)
    ensures table == [] ==> r.0 == r.1 == StampAll(demo, keys, now)
  {
    if table == [] then var stamped := StampAll(demo, keys, now); (stamped, stamped) else (table, demo)
  }

  /** `init_demo_data` as a function: the new collections and the new demo
      lists. Each collection is decided by its own emptiness alone; a
      non-empty one, and its demo list, are left as they are. */
  function Seed(t: Tables, demo: DemoLists, now: int, aboutId: ObjectId): (r: (Tables, DemoLists))
    ensures t.blogs != [] ==> r.0.blogs == t.blogs && r.1.blogs == demo.blogs
    ensures t.blogs == [] ==> r.0.blogs == r.1.blogs == StampAll(demo.blogs, BlogStamps, now)
    ensures t.services != [] ==> r.0.services == t.services && r.1.services == demo.services
    ensures t.services == [] ==> r.0.services == r.1.services == StampAll(demo.services, ServiceStamps, now)
    ensures t.events != [] ==> r.0.events == t.events && r.1.events == demo.events
    ensures t.events == [] ==> r.0.events == r.1.events == StampAll(demo.events, EventStamps, now)
    ensures t.settings != [] ==> r.0.settings == t.settings && r.1.settings == demo.settings
    ensures t.settings == [] ==> r.0.settings == r.1.settings == StampAll(demo.settings, SettingStamps, now)
    ensures t.about != [] ==> r.0.about == t.about
    ensures t.about == [] ==> r.0.about == [SeededAbout(now, aboutId)]
  {
    var blogs := SeedOne(t.blogs, demo.blogs, BlogStamps, now);
    var services := SeedOne(t.services, demo.services, ServiceStamps, now);
    var events := SeedOne(t.events, demo.events, EventStamps, now);
    var settings := SeedOne(t.settings, demo.settings, SettingStamps, now);
    var about := if t.about == [] then [SeededAbout(now, aboutId)] else t.about;
    (Tables(blogs.0, services.0, events.0, settings.0, about),
     DemoLists(blogs.1, services.1, events.1, settings.1))
  }

  predicate NoEmptyList(demo: DemoLists)
  {
    demo.blogs != [] && demo.services != [] && demo.events != [] && demo.settings != []
  }

  /** A second run, at any later instant, changes nothing: every collection
      is non-empty after the first, because no demo list is empty. */
  lemma SeedIdempotent(t: Tables, demo: DemoLists, now: int, aboutId: ObjectId, later: int, laterId: ObjectId)
    requires NoEmptyList(demo)
    ensures var (t1, demo1) := Seed(t, demo, now, aboutId);
            Seed(t1, demo1, later, laterId) == (t1, demo1)
  {
  }

  /** Seeding an empty database with the demo lists yields 6 blogs, 15
      services, 5 events, 6 settings and 1 about document. */
  lemma SeedCounts(now: int, aboutId: ObjectId)
    ensures var (t, _) := Seed(Tables([], [], [], [], []), DemoLists(DemoBlogs, DemoServices, DemoEvents, DemoSettings), now, aboutId);
            |t.blogs| == 6 && |t.services| == 15 && |t.events| == 5 && |t.settings| == 6 && |t.about| == 1
  {
    DemoListSizes();
  }

  /** Seeding keeps the about collection a singleton. */
  lemma SeedKeepsAboutSingleton(t: Tables, demo: DemoLists, now: int, aboutId: ObjectId)
    requires About.Singleton(t.about)
    ensures About.Singleton(Seed(t, demo, now, aboutId).0.about)
  {
  }

  // ---------------------------------------------------- the state in place

  /** The module-level demo lists, whose dicts `init_demo_data` stamps in
      place; they are four distinct arrays. */
  class DemoData {
    const blogs: array<Document>
    const services: array<Document>
    const events: array<Document>
    const settings: array<Document>

    ghost predicate Valid()
      reads this
    {
      blogs != services && blogs != events && blogs != settings &&
      services != events && services != settings && events != settings
    }

    function Lists(): DemoLists
      reads this, blogs, services, events, settings
    {
      DemoLists(blogs[..], services[..], events[..], settings[..])
    }

    constructor ()
      ensures Valid()
      ensures fresh(blogs) && fresh(services) && fresh(events) && fresh(settings)
      ensures Lists() == DemoLists(DemoBlogs, DemoServices, DemoEvents, DemoSettings)
    {
      var b := ArrayOf(DemoBlogs);
      var sv := ArrayOf(DemoServices);
      var e := ArrayOf(DemoEvents);
      var st := ArrayOf(DemoSettings);
      blogs, services, events, settings := b, sv, e, st;
    }
  }

  /** A new array holding the documents of `ds`. */
  method ArrayOf(ds: seq<Document>) returns (a: array<Document>)
    ensures fresh(a) && a[..] == ds
  {
    a := new Document[|ds|](i requires 0 <= i < |ds| => ds[i]);
  }

  /** A stamping loop: sets `keys` to `now` in every dict of the list. */
  method StampInPlace(a: array<Document>, keys: set<string>, now: int)
    modifies a
    ensures a[..] == StampAll(old(a[..]), keys, now)
  {
    for i := 0 to a.Length
      invariant forall j :: 0 <= j < i ==> a[j] == Stamp(old(a[j]), keys, now)
      invariant forall j :: i <= j < a.Length ==> a[j] == old(a[j])
    {
      a[i] := Stamp(a[i], keys, now);
    }
  }

  /** One `if count == 0: stamp; insert_many` step, on a collection and the
      demo list it is seeded from. */
  method SeedList(table: seq<Document>, demo: array<Document>, keys: set<string>, now: int)
    returns (newTable: seq<Document>)
    modifies demo
    ensures (newTable, demo[..]) == SeedOne(table, old(demo[..]), keys, now)
  {
    newTable := table;
    if |table| == 0 {
      StampInPlace(demo, keys, now);
      newTable := table + demo[..];
      assert newTable == demo[..];
    }
  }

  /** The database `init_demo_data` receives. */
  class Database {
    var blogs: seq<Document>
    var services: seq<Document>
    var events: seq<Document>
    var settings: seq<Document>
    const about: About.AboutCollection

    constructor (blogs: seq<Document>, services: seq<Document>, events: seq<Document>,
                 settings: seq<Document>, about: About.AboutCollection)
      ensures Contents() == Tables(blogs, services, events, settings, about.docs)
      ensures this.about == about
    {
      this.blogs, this.services, this.events, this.settings := blogs, services, events, settings;
      this.about := about;
    }

    function Contents(): Tables
      reads this, about
    {
      Tables(blogs, services, events, settings, about.docs)
    }

    /** `init_demo_data`, with one clock reading `now` and the `_id` the
        driver gives the about document. */
    method InitDemoData(demo: DemoData, now: int, aboutId: ObjectId)
      requires demo.Valid() && about.Valid()
      modifies this, about, demo.blogs, demo.services, demo.events, demo.settings
      ensures about.Valid()
      ensures (Contents(), demo.Lists()) == Seed(old(Contents()), old(demo.Lists()), now, aboutId)
    {
      ghost var before, demoBefore := Contents(), demo.Lists();
      blogs := SeedList(blogs, demo.blogs, BlogStamps, now);
      services := SeedList(services, demo.services, ServiceStamps, now);
      events := SeedList(events, demo.events, EventStamps, now);
      settings := SeedList(settings, demo.settings, SettingStamps, now);
      if about.docs == [] {
        about.docs := [SeededAbout(now, aboutId)];
      }
      assert Contents() == Seed(before, demoBefore, now, aboutId).0;
      assert demo.Lists() == Seed(before, demoBefore, now, aboutId).1;
    }
  }
}
