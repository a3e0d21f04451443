/**
 * `MemStorage` of Admin/server/storage.ts: ten tables, each a JavaScript
 * `Map` from a generated id to a record, with the list, get, create, update
 * and delete methods and the dashboard summary. The id `nanoid()` would
 * produce and the time `new Date()` would read are parameters of each
 * create and update method.
 */
module Storage {
  import opened Wrappers
  import opened Js
  import opened OrderedMaps
  import opened StorageLists

  /** The page of a list method that filters on one `includes` search. */
  lemma SearchPage(values: seq<Record>, field: string, search: Option<string>, limit: Option<int>, offset: Option<int>)
    ensures forall x :: x in ListPage(values, SearchFilter(field, search), limit, offset).items ==> SearchOk(x, field, search)
  {
    forall x | x in ListPage(values, SearchFilter(field, search), limit, offset).items
      ensures SearchOk(x, field, search)
    {
      SearchMeaning(x, field, search);
    }
  }

  /** The page of a list method that filters on one equality. */
  lemma MatchPage(values: seq<Record>, field: string, value: Option<string>, limit: Option<int>, offset: Option<int>)
    ensures forall x :: x in ListPage(values, MatchFilter(field, value), limit, offset).items ==> MatchOk(x, field, value)
  {
    forall x | x in ListPage(values, MatchFilter(field, value), limit, offset).items
      ensures MatchOk(x, field, value)
    {
      MatchMeaning(x, field, value);
    }
  }

  /** The page of a list method that filters on a search and then an equality. */
  lemma SearchMatchPage(values: seq<Record>, sf: string, search: Option<string>, mf: string, value: Option<string>,
                        limit: Option<int>, offset: Option<int>)
    ensures forall x :: x in ListPage(values, SearchFilter(sf, search) + MatchFilter(mf, value), limit, offset).items ==>
              SearchOk(x, sf, search) && MatchOk(x, mf, value)
  {
    forall x | x in ListPage(values, SearchFilter(sf, search) + MatchFilter(mf, value), limit, offset).items
      ensures SearchOk(x, sf, search) && MatchOk(x, mf, value)
    {
      PassesAllAppend(x, SearchFilter(sf, search), MatchFilter(mf, value));
      SearchMeaning(x, sf, search);
      MatchMeaning(x, mf, value);
    }
  }

  /** The page of a list method that filters on two equalities. */
  lemma MatchMatchPage(values: seq<Record>, f1: string, v1: Option<string>, f2: string, v2: Option<string>,
                       limit: Option<int>, offset: Option<int>)
    ensures forall x :: x in ListPage(values, MatchFilter(f1, v1) + MatchFilter(f2, v2), limit, offset).items ==>
              MatchOk(x, f1, v1) && MatchOk(x, f2, v2)
  {
    forall x | x in ListPage(values, MatchFilter(f1, v1) + MatchFilter(f2, v2), limit, offset).items
      ensures MatchOk(x, f1, v1) && MatchOk(x, f2, v2)
    {
      PassesAllAppend(x, MatchFilter(f1, v1), MatchFilter(f2, v2));
      MatchMeaning(x, f1, v1);
      MatchMeaning(x, f2, v2);
    }
  }

  /** The result of `getDashboardStats`. */
  datatype Stats = Stats(totalUsers: nat, totalApplications: nat, activeScholarships: nat, activeJobs: nat,
                         recentActivity: seq<Record>)

  class MemStorage {
    var usersMap: Table<Record>
    var scholarshipsMap: Table<Record>
    var jobsMap: Table<Record>
    var partnersMap: Table<Record>
    var blogMap: Table<Record>
    var teamMap: Table<Record>
    var applicationsMap: Table<Record>
    var chatMap: Table<Record>
    var notificationsMap: Table<Record>
    var auditLogsMap: Table<Record>

    /** Every table starts empty. */
    constructor ()
      ensures usersMap == scholarshipsMap == jobsMap == partnersMap == blogMap == Empty()
      ensures teamMap == applicationsMap == chatMap == notificationsMap == auditLogsMap == Empty()
    {
      usersMap := Empty();
      scholarshipsMap := Empty();
      jobsMap := Empty();
      partnersMap := Empty();
      blogMap := Empty();
      teamMap := Empty();
      applicationsMap := Empty();
      chatMap := Empty();
      notificationsMap := Empty();
      auditLogsMap := Empty();
    }

    // Users


    /** `usersMap.get(id)`. */
    function GetUser(id: string): (r: Option<Record>)
      reads this
      ensures r.Some? <==> id in usersMap.keys
      ensures r.Some? ==> r.value == usersMap.rows[id]
    {
      Get(usersMap, id)
    }

    /** The first user, in insertion order, whose `username` is exactly the given one. */
    function GetUserByUsername(username: string): (r: Option<Record>)
      reads this
      ensures r.None? <==> forall u :: u in Values(usersMap) ==> !Passes(u, Equals("username", username))
      ensures r.Some? ==> r.value in Values(usersMap) && Passes(r.value, Equals("username", username))
      ensures r.Some? ==> exists i :: 0 <= i < |Values(usersMap)| && Values(usersMap)[i] == r.value
                            && forall j :: 0 <= j < i ==> !Passes(Values(usersMap)[j], Equals("username", username))
    {
      FindFirst(Values(usersMap), "username", username)
    }

    /** The first user, in insertion order, whose `email` is exactly the given one. */
    function GetUserByEmail(email: string): (r: Option<Record>)
      reads this
      ensures r.None? <==> forall u :: u in Values(usersMap) ==> !Passes(u, Equals("email", email))
      ensures r.Some? ==> r.value in Values(usersMap) && Passes(r.value, Equals("email", email))
      ensures r.Some? ==> exists i :: 0 <= i < |Values(usersMap)| && Values(usersMap)[i] == r.value
                            && forall j :: 0 <= j < i ==> !Passes(Values(usersMap)[j], Equals("email", email))
    {
      FindFirst(Values(usersMap), "email", email)
    }

    /** `createUser`: active, no profile image, never logged in. */
    method CreateUser(input: Record, id: string, now: int) returns (item: Record)
      modifies this`usersMap
      ensures item == Stamped(input, UserStamp(id, now))
      ensures usersMap == Set(old(usersMap), id, item)
      ensures id !in old(usersMap).keys ==> Values(usersMap) == Values(old(usersMap)) + [item] && Size(usersMap) == Size(old(usersMap)) + 1
    {
      item := Stamped(input, UserStamp(id, now));
      if id !in usersMap.keys { SetNewKey(usersMap, id, item); }
      usersMap := Set(usersMap, id, item);
    }

    /** `updateUser`: merge the updates and refresh `updatedAt`; a missing id throws "User not found". */
    method UpdateUser(id: string, updates: Record, now: int) returns (r: Result<Record, string>)
      modifies this`usersMap
      ensures r.Err? <==> id !in old(usersMap).keys
      ensures r.Err? ==> r.error == "User not found" && usersMap == old(usersMap)
      ensures r.Ok? ==> (r.value == Merged(old(usersMap).rows[id], updates, now)
        && Get(usersMap, id) == Some(r.value) && usersMap.keys == old(usersMap).keys)
      ensures forall j :: j != id ==> Get(usersMap, j) == Get(old(usersMap), j)
    {
      var outcome := UpdateEntry(usersMap, id, updates, now, "User not found");
      r := outcome.0;
      usersMap := outcome.1;
    }

    /** `deleteUser`. */
    method DeleteUser(id: string)
      modifies this`usersMap
      ensures usersMap == Delete(old(usersMap), id)
      ensures Get(usersMap, id).None? && forall j :: j != id ==> Get(usersMap, j) == Get(old(usersMap), j)
    {
      usersMap := Delete(usersMap, id);
    }

    /** `getUsers`: users whose username contains `search`, paginated. */
    function GetUsers(limit: Option<int>, offset: Option<int>, search: Option<string>): (p: Page)
      reads this
      ensures p.total == |Select(Values(usersMap), SearchFilter("username", search))| <= Size(usersMap)
      ensures forall x :: x in p.items ==> x in Values(usersMap) && SearchOk(x, "username", search)
      ensures limit.GetOr(DefaultLimit) >= 0 ==> |p.items| <= limit.GetOr(DefaultLimit)
      ensures (search.None? || search.value == "") && offset.GetOr(DefaultOffset) == 0 && limit.GetOr(DefaultLimit) >= Size(usersMap)
        ==> p == Page(Values(usersMap), Size(usersMap))
    {
      SearchPage(Values(usersMap), "username", search, limit, offset);
      UnfilteredFirstPage(Values(usersMap), limit, offset);
      ListPage(Values(usersMap), SearchFilter("username", search), limit, offset)
    }

    // Scholarships


    /** The scholarships whose title contains `search` and whose status equals `status`, paginated. */
    function GetScholarships(limit: Option<int>, offset: Option<int>, search: Option<string>, status: Option<string>): (p: Page)
      reads this
      ensures p.total == |Select(Values(scholarshipsMap), SearchFilter("title", search) + MatchFilter("status", status))| <= Size(scholarshipsMap)
      ensures forall x :: x in p.items ==> x in Values(scholarshipsMap) && SearchOk(x, "title", search) && MatchOk(x, "status", status)
      ensures limit.GetOr(DefaultLimit) >= 0 ==> |p.items| <= limit.GetOr(DefaultLimit)
      ensures (search.None? || search.value == "") && (status.None? || status.value == "") && offset.GetOr(DefaultOffset) == 0 && limit.GetOr(DefaultLimit) >= Size(scholarshipsMap)
        ==> p == Page(Values(scholarshipsMap), Size(scholarshipsMap))
    {
      SearchMatchPage(Values(scholarshipsMap), "title", search, "status", status, limit, offset);
      UnfilteredFirstPage(Values(scholarshipsMap), limit, offset);
      ListPage(Values(scholarshipsMap), SearchFilter("title", search) + MatchFilter("status", status), limit, offset)
    }

    /** `scholarshipsMap.get(id)`. */
    function GetScholarship(id: string): (r: Option<Record>)
      reads this
      ensures r.Some? <==> id in scholarshipsMap.keys
      ensures r.Some? ==> r.value == scholarshipsMap.rows[id]
    {
      Get(scholarshipsMap, id)
    }

    /** A new entry owned by `createdBy`, stored under the fresh id `id`. */
    method CreateScholarship(input: Record, createdBy: string, id: string, now: int) returns (item: Record)
      modifies this`scholarshipsMap
      ensures item == Stamped(input, OwnedStamp(id, createdBy, now))
      ensures scholarshipsMap == Set(old(scholarshipsMap), id, item)
      ensures id !in old(scholarshipsMap).keys ==> Values(scholarshipsMap) == Values(old(scholarshipsMap)) + [item] && Size(scholarshipsMap) == Size(old(scholarshipsMap)) + 1
    {
      item := Stamped(input, OwnedStamp(id, createdBy, now));
      if id !in scholarshipsMap.keys { SetNewKey(scholarshipsMap, id, item); }
      scholarshipsMap := Set(scholarshipsMap, id, item);
    }

    /** Merge the updates and refresh `updatedAt`; a missing id throws "Not found". */
    method UpdateScholarship(id: string, updates: Record, now: int) returns (r: Result<Record, string>)
      modifies this`scholarshipsMap
      ensures r.Err? <==> id !in old(scholarshipsMap).keys
      ensures r.Err? ==> r.error == "Not found" && scholarshipsMap == old(scholarshipsMap)
      ensures r.Ok? ==> (r.value == Merged(old(scholarshipsMap).rows[id], updates, now)
        && Get(scholarshipsMap, id) == Some(r.value) && scholarshipsMap.keys == old(scholarshipsMap).keys)
      ensures forall j :: j != id ==> Get(scholarshipsMap, j) == Get(old(scholarshipsMap), j)
    {
      var outcome := UpdateEntry(scholarshipsMap, id, updates, now, "Not found");
      r := outcome.0;
      scholarshipsMap := outcome.1;
    }

    /** A missing id is not an error. */
    method DeleteScholarship(id: string)
      modifies this`scholarshipsMap
      ensures scholarshipsMap == Delete(old(scholarshipsMap), id)
      ensures Get(scholarshipsMap, id).None? && forall j :: j != id ==> Get(scholarshipsMap, j) == Get(old(scholarshipsMap), j)
    {
      scholarshipsMap := Delete(scholarshipsMap, id);
    }

    // Job opportunities


    /** The job opportunities whose title contains `search` and whose status equals `status`, paginated. */
    function GetJobOpportunities(limit: Option<int>, offset: Option<int>, search: Option<string>, status: Option<string>): (p: Page)
      reads this
      ensures p.total == |Select(Values(jobsMap), SearchFilter("title", search) + MatchFilter("status", status))| <= Size(jobsMap)
      ensures forall x :: x in p.items ==> x in Values(jobsMap) && SearchOk(x, "title", search) && MatchOk(x, "status", status)
      ensures limit.GetOr(DefaultLimit) >= 0 ==> |p.items| <= limit.GetOr(DefaultLimit)
      ensures (search.None? || search.value == "") && (status.None? || status.value == "") && offset.GetOr(DefaultOffset) == 0 && limit.GetOr(DefaultLimit) >= Size(jobsMap)
        ==> p == Page(Values(jobsMap), Size(jobsMap))
    {
      SearchMatchPage(Values(jobsMap), "title", search, "status", status, limit, offset);
      UnfilteredFirstPage(Values(jobsMap), limit, offset);
      ListPage(Values(jobsMap), SearchFilter("title", search) + MatchFilter("status", status), limit, offset)
    }

    /** `jobsMap.get(id)`. */
    function GetJobOpportunity(id: string): (r: Option<Record>)
      reads this
      ensures r.Some? <==> id in jobsMap.keys
      ensures r.Some? ==> r.value == jobsMap.rows[id]
    {
      Get(jobsMap, id)
    }

    /** A new entry owned by `createdBy`, stored under the fresh id `id`. */
    method CreateJobOpportunity(input: Record, createdBy: string, id: string, now: int) returns (item: Record)
      modifies this`jobsMap
      ensures item == Stamped(input, OwnedStamp(id, createdBy, now))
      ensures jobsMap == Set(old(jobsMap), id, item)
      ensures id !in old(jobsMap).keys ==> Values(jobsMap) == Values(old(jobsMap)) + [item] && Size(jobsMap) == Size(old(jobsMap)) + 1
    {
      item := Stamped(input, OwnedStamp(id, createdBy, now));
      if id !in jobsMap.keys { SetNewKey(jobsMap, id, item); }
      jobsMap := Set(jobsMap, id, item);
    }

    /** Merge the updates and refresh `updatedAt`; a missing id throws "Not found". */
    method UpdateJobOpportunity(id: string, updates: Record, now: int) returns (r: Result<Record, string>)
      modifies this`jobsMap
      ensures r.Err? <==> id !in old(jobsMap).keys
      ensures r.Err? ==> r.error == "Not found" && jobsMap == old(jobsMap)
      ensures r.Ok? ==> (r.value == Merged(old(jobsMap).rows[id], updates, now)
        && Get(jobsMap, id) == Some(r.value) && jobsMap.keys == old(jobsMap).keys)
      ensures forall j :: j != id ==> Get(jobsMap, j) == Get(old(jobsMap), j)
    {
      var outcome := UpdateEntry(jobsMap, id, updates, now, "Not found");
      r := outcome.0;
      jobsMap := outcome.1;
    }

    /** A missing id is not an error. */
    method DeleteJobOpportunity(id: string)
      modifies this`jobsMap
      ensures jobsMap == Delete(old(jobsMap), id)
      ensures Get(jobsMap, id).None? && forall j :: j != id ==> Get(jobsMap, j) == Get(old(jobsMap), j)
    {
      jobsMap := Delete(jobsMap, id);
    }

    // Partner institutions


    /** The partner institutions whose name contains `search`, paginated. */
    function GetPartnerInstitutions(limit: Option<int>, offset: Option<int>, search: Option<string>): (p: Page)
      reads this
      ensures p.total == |Select(Values(partnersMap), SearchFilter("name", search))| <= Size(partnersMap)
      ensures forall x :: x in p.items ==> x in Values(partnersMap) && SearchOk(x, "name", search)
      ensures limit.GetOr(DefaultLimit) >= 0 ==> |p.items| <= limit.GetOr(DefaultLimit)
      ensures (search.None? || search.value == "") && offset.GetOr(DefaultOffset) == 0 && limit.GetOr(DefaultLimit) >= Size(partnersMap)
        ==> p == Page(Values(partnersMap), Size(partnersMap))
    {
      SearchPage(Values(partnersMap), "name", search, limit, offset);
      UnfilteredFirstPage(Values(partnersMap), limit, offset);
      ListPage(Values(partnersMap), SearchFilter("name", search), limit, offset)
    }

    /** `partnersMap.get(id)`. */
    function GetPartnerInstitution(id: string): (r: Option<Record>)
      reads this
      ensures r.Some? <==> id in partnersMap.keys
      ensures r.Some? ==> r.value == partnersMap.rows[id]
    {
      Get(partnersMap, id)
    }

    /** A new entry owned by `createdBy`, stored under the fresh id `id`. */
    method CreatePartnerInstitution(input: Record, createdBy: string, id: string, now: int) returns (item: Record)
      modifies this`partnersMap
      ensures item == Stamped(input, OwnedStamp(id, createdBy, now))
      ensures partnersMap == Set(old(partnersMap), id, item)
      ensures id !in old(partnersMap).keys ==> Values(partnersMap) == Values(old(partnersMap)) + [item] && Size(partnersMap) == Size(old(partnersMap)) + 1
    {
      item := Stamped(input, OwnedStamp(id, createdBy, now));
      if id !in partnersMap.keys { SetNewKey(partnersMap, id, item); }
      partnersMap := Set(partnersMap, id, item);
    }

    /** Merge the updates and refresh `updatedAt`; a missing id throws "Not found". */
    method UpdatePartnerInstitution(id: string, updates: Record, now: int) returns (r: Result<Record, string>)
      modifies this`partnersMap
      ensures r.Err? <==> id !in old(partnersMap).keys
      ensures r.Err? ==> r.error == "Not found" && partnersMap == old(partnersMap)
      ensures r.Ok? ==> (r.value == Merged(old(partnersMap).rows[id], updates, now)
        && Get(partnersMap, id) == Some(r.value) && partnersMap.keys == old(partnersMap).keys)
      ensures forall j :: j != id ==> Get(partnersMap, j) == Get(old(partnersMap), j)
    {
      var outcome := UpdateEntry(partnersMap, id, updates, now, "Not found");
      r := outcome.0;
      partnersMap := outcome.1;
    }

    /** A missing id is not an error. */
    method DeletePartnerInstitution(id: string)
      modifies this`partnersMap
      ensures partnersMap == Delete(old(partnersMap), id)
      ensures Get(partnersMap, id).None? && forall j :: j != id ==> Get(partnersMap, j) == Get(old(partnersMap), j)
    {
      partnersMap := Delete(partnersMap, id);
    }

    // Blog posts


    /** The blog posts whose title contains `search` and whose status equals `status`, paginated. */
    function GetBlogPosts(limit: Option<int>, offset: Option<int>, search: Option<string>, status: Option<string>): (p: Page)
      reads this
      ensures p.total == |Select(Values(blogMap), SearchFilter("title", search) + MatchFilter("status", status))| <= Size(blogMap)
      ensures forall x :: x in p.items ==> x in Values(blogMap) && SearchOk(x, "title", search) && MatchOk(x, "status", status)
      ensures limit.GetOr(DefaultLimit) >= 0 ==> |p.items| <= limit.GetOr(DefaultLimit)
      ensures (search.None? || search.value == "") && (status.None? || status.value == "") && offset.GetOr(DefaultOffset) == 0 && limit.GetOr(DefaultLimit) >= Size(blogMap)
        ==> p == Page(Values(blogMap), Size(blogMap))
    {
      SearchMatchPage(Values(blogMap), "title", search, "status", status, limit, offset);
      UnfilteredFirstPage(Values(blogMap), limit, offset);
      ListPage(Values(blogMap), SearchFilter("title", search) + MatchFilter("status", status), limit, offset)
    }

    /** `blogMap.get(id)`. */
    function GetBlogPost(id: string): (r: Option<Record>)
      reads this
      ensures r.Some? <==> id in blogMap.keys
      ensures r.Some? ==> r.value == blogMap.rows[id]
    {
      Get(blogMap, id)
    }

    /** A new entry owned by `createdBy`, stored under the fresh id `id`. */
    method CreateBlogPost(input: Record, createdBy: string, id: string, now: int) returns (item: Record)
      modifies this`blogMap
      ensures item == Stamped(input, OwnedStamp(id, createdBy, now))
      ensures blogMap == Set(old(blogMap), id, item)
      ensures id !in old(blogMap).keys ==> Values(blogMap) == Values(old(blogMap)) + [item] && Size(blogMap) == Size(old(blogMap)) + 1
    {
      item := Stamped(input, OwnedStamp(id, createdBy, now));
      if id !in blogMap.keys { SetNewKey(blogMap, id, item); }
      blogMap := Set(blogMap, id, item);
    }

    /** Merge the updates and refresh `updatedAt`; a missing id throws "Not found". */
    method UpdateBlogPost(id: string, updates: Record, now: int) returns (r: Result<Record, string>)
      modifies this`blogMap
      ensures r.Err? <==> id !in old(blogMap).keys
      ensures r.Err? ==> r.error == "Not found" && blogMap == old(blogMap)
      ensures r.Ok? ==> (r.value == Merged(old(blogMap).rows[id], updates, now)
        && Get(blogMap, id) == Some(r.value) && blogMap.keys == old(blogMap).keys)
      ensures forall j :: j != id ==> Get(blogMap, j) == Get(old(blogMap), j)
    {
      var outcome := UpdateEntry(blogMap, id, updates, now, "Not found");
      r := outcome.0;
      blogMap := outcome.1;
    }

    /** A missing id is not an error. */
    method DeleteBlogPost(id: string)
      modifies this`blogMap
      ensures blogMap == Delete(old(blogMap), id)
      ensures Get(blogMap, id).None? && forall j :: j != id ==> Get(blogMap, j) == Get(old(blogMap), j)
    {
      blogMap := Delete(blogMap, id);
    }

    // Team members


    /** The team members whose name contains `search`, paginated. */
    function GetTeamMembers(limit: Option<int>, offset: Option<int>, search: Option<string>): (p: Page)
      reads this
      ensures p.total == |Select(Values(teamMap), SearchFilter("name", search))| <= Size(teamMap)
      ensures forall x :: x in p.items ==> x in Values(teamMap) && SearchOk(x, "name", search)
      ensures limit.GetOr(DefaultLimit) >= 0 ==> |p.items| <= limit.GetOr(DefaultLimit)
      ensures (search.None? || search.value == "") && offset.GetOr(DefaultOffset) == 0 && limit.GetOr(DefaultLimit) >= Size(teamMap)
        ==> p == Page(Values(teamMap), Size(teamMap))
    {
      SearchPage(Values(teamMap), "name", search, limit, offset);
      UnfilteredFirstPage(Values(teamMap), limit, offset);
      ListPage(Values(teamMap), SearchFilter("name", search), limit, offset)
    }

    /** `teamMap.get(id)`. */
    function GetTeamMember(id: string): (r: Option<Record>)
      reads this
      ensures r.Some? <==> id in teamMap.keys
      ensures r.Some? ==> r.value == teamMap.rows[id]
    {
      Get(teamMap, id)
    }

    /** A new entry owned by `createdBy`, stored under the fresh id `id`. */
    method CreateTeamMember(input: Record, createdBy: string, id: string, now: int) returns (item: Record)
      modifies this`teamMap
      ensures item == Stamped(input, OwnedStamp(id, createdBy, now))
      ensures teamMap == Set(old(teamMap), id, item)
      ensures id !in old(teamMap).keys ==> Values(teamMap) == Values(old(teamMap)) + [item] && Size(teamMap) == Size(old(teamMap)) + 1
    {
      item := Stamped(input, OwnedStamp(id, createdBy, now));
      if id !in teamMap.keys { SetNewKey(teamMap, id, item); }
      teamMap := Set(teamMap, id, item);
    }

    /** Merge the updates and refresh `updatedAt`; a missing id throws "Not found". */
    method UpdateTeamMember(id: string, updates: Record, now: int) returns (r: Result<Record, string>)
      modifies this`teamMap
      ensures r.Err? <==> id !in old(teamMap).keys
      ensures r.Err? ==> r.error == "Not found" && teamMap == old(teamMap)
      ensures r.Ok? ==> (r.value == Merged(old(teamMap).rows[id], updates, now)
        && Get(teamMap, id) == Some(r.value) && teamMap.keys == old(teamMap).keys)
      ensures forall j :: j != id ==> Get(teamMap, j) == Get(old(teamMap), j)
    {
      var outcome := UpdateEntry(teamMap, id, updates, now, "Not found");
      r := outcome.0;
      teamMap := outcome.1;
    }

    /** A missing id is not an error. */
    method DeleteTeamMember(id: string)
      modifies this`teamMap
      ensures teamMap == Delete(old(teamMap), id)
      ensures Get(teamMap, id).None? && forall j :: j != id ==> Get(teamMap, j) == Get(old(teamMap), j)
    {
      teamMap := Delete(teamMap, id);
    }

    // Applications


    /** `getApplications`: filters on `status` only; `search` is accepted and ignored. */
    function GetApplications(limit: Option<int>, offset: Option<int>, search: Option<string>, status: Option<string>): (p: Page)
      reads this
      ensures p.total == |Select(Values(applicationsMap), MatchFilter("status", status))| <= Size(applicationsMap)
      ensures forall x :: x in p.items ==> x in Values(applicationsMap) && MatchOk(x, "status", status)
      ensures limit.GetOr(DefaultLimit) >= 0 ==> |p.items| <= limit.GetOr(DefaultLimit)
      ensures (status.None? || status.value == "") && offset.GetOr(DefaultOffset) == 0 && limit.GetOr(DefaultLimit) >= Size(applicationsMap)
        ==> p == Page(Values(applicationsMap), Size(applicationsMap))
    {
      MatchPage(Values(applicationsMap), "status", status, limit, offset);
      UnfilteredFirstPage(Values(applicationsMap), limit, offset);
      ListPage(Values(applicationsMap), MatchFilter("status", status), limit, offset)
    }

    /** `applicationsMap.get(id)`. */
    function GetApplication(id: string): (r: Option<Record>)
      reads this
      ensures r.Some? <==> id in applicationsMap.keys
      ensures r.Some? ==> r.value == applicationsMap.rows[id]
    {
      Get(applicationsMap, id)
    }

    /** `createApplication`: no `createdBy`. */
    method CreateApplication(input: Record, id: string, now: int) returns (item: Record)
      modifies this`applicationsMap
      ensures item == Stamped(input, PlainStamp(id, now))
      ensures applicationsMap == Set(old(applicationsMap), id, item)
      ensures id !in old(applicationsMap).keys ==> Values(applicationsMap) == Values(old(applicationsMap)) + [item] && Size(applicationsMap) == Size(old(applicationsMap)) + 1
    {
      item := Stamped(input, PlainStamp(id, now));
      if id !in applicationsMap.keys { SetNewKey(applicationsMap, id, item); }
      applicationsMap := Set(applicationsMap, id, item);
    }

    /** Merge the updates and refresh `updatedAt`; a missing id throws "Not found". */
    method UpdateApplication(id: string, updates: Record, now: int) returns (r: Result<Record, string>)
      modifies this`applicationsMap
      ensures r.Err? <==> id !in old(applicationsMap).keys
      ensures r.Err? ==> r.error == "Not found" && applicationsMap == old(applicationsMap)
      ensures r.Ok? ==> (r.value == Merged(old(applicationsMap).rows[id], updates, now)
        && Get(applicationsMap, id) == Some(r.value) && applicationsMap.keys == old(applicationsMap).keys)
      ensures forall j :: j != id ==> Get(applicationsMap, j) == Get(old(applicationsMap), j)
    {
      var outcome := UpdateEntry(applicationsMap, id, updates, now, "Not found");
      r := outcome.0;
      applicationsMap := outcome.1;
    }

    /** A missing id is not an error. */
    method DeleteApplication(id: string)
      modifies this`applicationsMap
      ensures applicationsMap == Delete(old(applicationsMap), id)
      ensures Get(applicationsMap, id).None? && forall j :: j != id ==> Get(applicationsMap, j) == Get(old(applicationsMap), j)
    {
      applicationsMap := Delete(applicationsMap, id);
    }

    // AI chat conversations (there is no delete)


    /** `getChatConversations`: every conversation, paginated. */
    function GetChatConversations(limit: Option<int>, offset: Option<int>): (p: Page)
      reads this
      ensures p.total == |Select(Values(chatMap), [])| <= Size(chatMap)
      ensures forall x :: x in p.items ==> x in Values(chatMap)
      ensures limit.GetOr(DefaultLimit) >= 0 ==> |p.items| <= limit.GetOr(DefaultLimit)
      ensures offset.GetOr(DefaultOffset) == 0 && limit.GetOr(DefaultLimit) >= Size(chatMap)
        ==> p == Page(Values(chatMap), Size(chatMap))
    {
      SelectNoFilter(Values(chatMap));
      UnfilteredFirstPage(Values(chatMap), limit, offset);
      ListPage(Values(chatMap), [], limit, offset)
    }

    /** `chatMap.get(id)`. */
    function GetChatConversation(id: string): (r: Option<Record>)
      reads this
      ensures r.Some? <==> id in chatMap.keys
      ensures r.Some? ==> r.value == chatMap.rows[id]
    {
      Get(chatMap, id)
    }

    /** `createChatConversation`. */
    method CreateChatConversation(input: Record, id: string, now: int) returns (item: Record)
      modifies this`chatMap
      ensures item == Stamped(input, PlainStamp(id, now))
      ensures chatMap == Set(old(chatMap), id, item)
      ensures id !in old(chatMap).keys ==> Values(chatMap) == Values(old(chatMap)) + [item] && Size(chatMap) == Size(old(chatMap)) + 1
    {
      item := Stamped(input, PlainStamp(id, now));
      if id !in chatMap.keys { SetNewKey(chatMap, id, item); }
      chatMap := Set(chatMap, id, item);
    }

    /** Merge the updates and refresh `updatedAt`; a missing id throws "Not found". */
    method UpdateChatConversation(id: string, updates: Record, now: int) returns (r: Result<Record, string>)
      modifies this`chatMap
      ensures r.Err? <==> id !in old(chatMap).keys
      ensures r.Err? ==> r.error == "Not found" && chatMap == old(chatMap)
      ensures r.Ok? ==> (r.value == Merged(old(chatMap).rows[id], updates, now)
        && Get(chatMap, id) == Some(r.value) && chatMap.keys == old(chatMap).keys)
      ensures forall j :: j != id ==> Get(chatMap, j) == Get(old(chatMap), j)
    {
      var outcome := UpdateEntry(chatMap, id, updates, now, "Not found");
      r := outcome.0;
      chatMap := outcome.1;
    }

    // Admin notifications


    /** `getAdminNotifications`: those addressed to `targetUserId` when it is given, paginated. */
    function GetAdminNotifications(limit: Option<int>, offset: Option<int>, targetUserId: Option<string>): (p: Page)
      reads this
      ensures p.total == |Select(Values(notificationsMap), MatchFilter("targetUserId", targetUserId))| <= Size(notificationsMap)
      ensures forall x :: x in p.items ==> x in Values(notificationsMap) && MatchOk(x, "targetUserId", targetUserId)
      ensures limit.GetOr(DefaultLimit) >= 0 ==> |p.items| <= limit.GetOr(DefaultLimit)
      ensures (targetUserId.None? || targetUserId.value == "") && offset.GetOr(DefaultOffset) == 0 && limit.GetOr(DefaultLimit) >= Size(notificationsMap)
        ==> p == Page(Values(notificationsMap), Size(notificationsMap))
    {
      MatchPage(Values(notificationsMap), "targetUserId", targetUserId, limit, offset);
      UnfilteredFirstPage(Values(notificationsMap), limit, offset);
      ListPage(Values(notificationsMap), MatchFilter("targetUserId", targetUserId), limit, offset)
    }

    /** `createAdminNotification`: stored unread. */
    method CreateAdminNotification(input: Record, id: string, now: int) returns (item: Record)
      modifies this`notificationsMap
      ensures item == Stamped(input, NotificationStamp(id, now))
      ensures notificationsMap == Set(old(notificationsMap), id, item)
      ensures id !in old(notificationsMap).keys ==> Values(notificationsMap) == Values(old(notificationsMap)) + [item] && Size(notificationsMap) == Size(old(notificationsMap)) + 1
    {
      item := Stamped(input, NotificationStamp(id, now));
      if id !in notificationsMap.keys { SetNewKey(notificationsMap, id, item); }
      notificationsMap := Set(notificationsMap, id, item);
    }

    /** `markNotificationAsRead`: sets `isRead` on the stored record; a missing id is ignored. */
    method MarkNotificationAsRead(id: string)
      modifies this`notificationsMap
      ensures notificationsMap == MarkedRead(old(notificationsMap), id)
      ensures id in old(notificationsMap).keys ==> Get(notificationsMap, id).value["isRead"] == Bool(true)
      ensures notificationsMap.keys == old(notificationsMap).keys
    {
      notificationsMap := MarkedRead(notificationsMap, id);
    }

    // Audit logs (append-only: no update, no delete)


    /** `getAuditLogs`: entries by `userId` and of `entityType` when given, paginated. */
    function GetAuditLogs(limit: Option<int>, offset: Option<int>, userId: Option<string>, entityType: Option<string>): (p: Page)
      reads this
      ensures p.total == |Select(Values(auditLogsMap), MatchFilter("userId", userId) + MatchFilter("entityType", entityType))| <= Size(auditLogsMap)
      ensures forall x :: x in p.items ==> x in Values(auditLogsMap) && MatchOk(x, "userId", userId) && MatchOk(x, "entityType", entityType)
      ensures limit.GetOr(DefaultLimit) >= 0 ==> |p.items| <= limit.GetOr(DefaultLimit)
      ensures (userId.None? || userId.value == "") && (entityType.None? || entityType.value == "") && offset.GetOr(DefaultOffset) == 0 && limit.GetOr(DefaultLimit) >= Size(auditLogsMap)
        ==> p == Page(Values(auditLogsMap), Size(auditLogsMap))
    {
      MatchMatchPage(Values(auditLogsMap), "userId", userId, "entityType", entityType, limit, offset);
      UnfilteredFirstPage(Values(auditLogsMap), limit, offset);
      ListPage(Values(auditLogsMap), MatchFilter("userId", userId) + MatchFilter("entityType", entityType), limit, offset)
    }

    /** `createAuditLog`: only `id` and `createdAt` are added. */
    method CreateAuditLog(input: Record, id: string, now: int) returns (item: Record)
      modifies this`auditLogsMap
      ensures item == Stamped(input, AuditStamp(id, now))
      ensures auditLogsMap == Set(old(auditLogsMap), id, item)
      ensures id !in old(auditLogsMap).keys ==> Values(auditLogsMap) == Values(old(auditLogsMap)) + [item] && Size(auditLogsMap) == Size(old(auditLogsMap)) + 1
    {
      item := Stamped(input, AuditStamp(id, now));
      if id !in auditLogsMap.keys { SetNewKey(auditLogsMap, id, item); }
      auditLogsMap := Set(auditLogsMap, id, item);
    }

    // Analytics

    /**
     * `getDashboardStats`: the user and application counts, the published
     * scholarships and jobs, and the last ten audit entries, newest first.
     */
    function GetDashboardStats(): (s: Stats)
      reads this
      ensures s.totalUsers == Size(usersMap) && s.totalApplications == Size(applicationsMap)
      ensures s.activeScholarships == |Select(Values(scholarshipsMap), [Equals("status", "published")])| <= Size(scholarshipsMap)
      ensures s.activeJobs == |Select(Values(jobsMap), [Equals("status", "published")])| <= Size(jobsMap)
      ensures |s.recentActivity| == if Size(auditLogsMap) < 10 then Size(auditLogsMap) else 10
      ensures forall k :: 0 <= k < |s.recentActivity| ==>
        s.recentActivity[k] == Values(auditLogsMap)[Size(auditLogsMap) - 1 - k]
    {
      Stats(Size(usersMap), Size(applicationsMap), CountPublished(Values(scholarshipsMap)),
            CountPublished(Values(jobsMap)), Recent(Values(auditLogsMap)))
    }
  }

  /** `search` has no effect on `getApplications`. */
  lemma ApplicationsIgnoreSearch(store: MemStorage, limit: Option<int>, offset: Option<int>,
                                 s1: Option<string>, s2: Option<string>, status: Option<string>)
    ensures store.GetApplications(limit, offset, s1, status) == store.GetApplications(limit, offset, s2, status)
  {
  }
}
