/** The public operations of EasyJdbcTemplate, reduced to what they decide themselves: the
    argument guards run before any executor is built, the choice of paging mode, one call of an
    executor (a function parameter here, since executors are outside this model), and the shaping
    of the executor's result. The fluent Builder and the construction of a template from it are
    modelled as classes. */
module EasyJdbc {
  import Paging

  datatype Option<T> = None | Some(value: T)

  /** How a public operation ends when it does not return a value. */
  datatype Failure =
    | IllegalArgument(message: string)  // an argument guard rejected the call
    | NullPointer                       // a null Integer or SQL object was dereferenced
    | EmptyResult                       // the executor found no row for a single-row lookup
    | DataAccess(reason: string)        // any other failure raised by an executor or JDBC

  datatype Result<T> = Ok(value: T) | Err(failure: Failure)

  /** A persistent class handed to an operation (a Java `Class<?>`). */
  datatype EntityClass = EntityClass(name: string)

  const ENTITY_TYPE_EMPTY := "Entity type cannot be empty"
  const PRIMARY_KEY_EMPTY := "Primary key cannot be empty"
  const SQL_STATEMENT_EMPTY := "SQL statement cannot be empty"
  const ENTITY_LIST_EMPTY := "Entity list cannot be empty"
  const ENTITY_LIST_EMPTY_UPDATE := "Entity list cannot be emp"
  const PAGE_NUM_TOO_SMALL := " PageNum must be greater than or equal to 1"
  const PAGE_SIZE_TOO_SMALL := "PageSize must be greater than 0"
  const OFFSET_NEGATIVE_PAGE := " 0ffset must be greater than or equal to 0"
  const OFFSET_NEGATIVE_BUILDER := "0ffset must be greater than or equal to 0"
  const OFFSET_NEGATIVE := "Offset must be greater than or equal to 0"
  const LIMIT_TOO_SMALL := "Limit must be greater than 0"

  /** The characters Java's `Character.isWhitespace` accepts in the ASCII range. */
  predicate IsWhitespace(c: char)
  {
    c == ' ' || c == '\t' || c == '\n' || c == '\U{000B}' || c == '\U{000C}' || c == '\r' ||
    ('\U{001C}' <= c <= '\U{001F}')
  }

  /** The text guard: a non-null string holding at least one non-whitespace character. */
  predicate HasText(s: Option<string>)
  {
    s.Some? && exists i :: 0 <= i < |s.value| && !IsWhitespace(s.value[i])
  }

  // ----- entity queries ---------------------------------------------------------------------

  /** find(String sql, Class, Object...): the class must be non-null, then the SQL must have
      text; only then is the find executor run. */
  function Find<T>(sql: Option<string>, cls: Option<EntityClass>,
                   run: (string, EntityClass) -> Result<seq<T>>): (r: Result<seq<T>>)
    ensures cls.None? ==> r == Err(IllegalArgument(ENTITY_TYPE_EMPTY))
    ensures cls.Some? && !HasText(sql) ==> r == Err(IllegalArgument(SQL_STATEMENT_EMPTY))
    ensures cls.Some? && HasText(sql) ==> r == run(sql.value, cls.value)
  {
    if cls.None? then Err(IllegalArgument(ENTITY_TYPE_EMPTY))
    else if !HasText(sql) then Err(IllegalArgument(SQL_STATEMENT_EMPTY))
    else run(sql.value, cls.value)
  }

  /** get(String sql, Class, Object...): the first row `find` returns, or null when it returns
      none; failures of `find` propagate. */
  function Get<T>(sql: Option<string>, cls: Option<EntityClass>,
                  run: (string, EntityClass) -> Result<seq<T>>): (r: Result<Option<T>>)
    ensures r.Ok? <==> Find(sql, cls, run).Ok?
    ensures r.Err? ==> r.failure == Find(sql, cls, run).failure
    ensures r.Ok? ==> (r.value.None? <==> Find(sql, cls, run).value == [])
    ensures r.Ok? && r.value.Some? ==>
              r.value.value == Find(sql, cls, run).value[0]
  {
    if cls.None? then Err(IllegalArgument(ENTITY_TYPE_EMPTY))
    else
      match Find(sql, cls, run)
      case Err(f) => Err(f)
      case Ok(results) => Ok(if |results| > 0 then Some(results[0]) else None)
  }

  /** The guard shared by the two offset/limit `find` overloads, in their order: class, SQL text,
      then offset (unboxed, so a null one is a NullPointer) and limit. */
  function RangeGuard(sql: Option<string>, cls: Option<EntityClass>,
                      offset: Option<int>, limit: Option<int>, offsetMessage: string): (g: Option<Failure>)
    ensures g.None? <==>
              cls.Some? && HasText(sql) && offset.Some? && offset.value >= 0 &&
              limit.Some? && limit.value > 0
    ensures offset.Some? && offset.value < 0 ==> g.Some?
    ensures limit.Some? && limit.value <= 0 ==> g.Some?
  {
    if cls.None? then Some(IllegalArgument(ENTITY_TYPE_EMPTY))
    else if !HasText(sql) then Some(IllegalArgument(SQL_STATEMENT_EMPTY))
    else if offset.None? then Some(NullPointer)
    else if offset.value < 0 then Some(IllegalArgument(offsetMessage))
    else if limit.None? then Some(NullPointer)
    else if limit.value <= 0 then Some(IllegalArgument(LIMIT_TOO_SMALL))
    else None
  }

  /** find(String sql, Class, Integer offset, Integer limit, Object...): a negative offset or a
      non-positive limit fails before the executor runs; otherwise the executor's rows for that
      window are returned unchanged. */
  function FindRange<T>(sql: Option<string>, cls: Option<EntityClass>,
                        offset: Option<int>, limit: Option<int>,
                        run: (string, EntityClass, int, int) -> Result<seq<T>>): (r: Result<seq<T>>)
    ensures offset.Some? && offset.value < 0 ==> r.Err? && r.failure != EmptyResult
    ensures limit.Some? && limit.value <= 0 ==> r.Err? && r.failure != EmptyResult
    ensures cls.Some? && HasText(sql) && offset.Some? && offset.value < 0 ==>
              r == Err(IllegalArgument(OFFSET_NEGATIVE))
    ensures RangeGuard(sql, cls, offset, limit, OFFSET_NEGATIVE).Some? ==>
              r == Err(RangeGuard(sql, cls, offset, limit, OFFSET_NEGATIVE).value)
    ensures RangeGuard(sql, cls, offset, limit, OFFSET_NEGATIVE).None? ==>
              r == run(sql.value, cls.value, offset.value, limit.value)
  {
    match RangeGuard(sql, cls, offset, limit, OFFSET_NEGATIVE)
    case Some(f) => Err(f)
    case None => run(sql.value, cls.value, offset.value, limit.value)
  }

  /** find(SQL selectSql, Class, Integer offset, Integer limit, Object...): the same guard over the
      rendered text of the SQL builder (`None` for a null builder, which fails on `toString`). */
  function FindBuilderRange<T>(selectSql: Option<string>, cls: Option<EntityClass>,
                               offset: Option<int>, limit: Option<int>,
                               run: (string, EntityClass, int, int) -> Result<seq<T>>): (r: Result<seq<T>>)
    ensures cls.Some? && selectSql.None? ==> r == Err(NullPointer)
    ensures offset.Some? && offset.value < 0 ==> r.Err? && r.failure != EmptyResult
    ensures limit.Some? && limit.value <= 0 ==> r.Err? && r.failure != EmptyResult
    ensures cls.Some? && HasText(selectSql) && offset.Some? && offset.value < 0 ==>
              r == Err(IllegalArgument(OFFSET_NEGATIVE_BUILDER))
    ensures !(cls.Some? && selectSql.None?) &&
            RangeGuard(selectSql, cls, offset, limit, OFFSET_NEGATIVE_BUILDER).Some? ==>
              r == Err(RangeGuard(selectSql, cls, offset, limit, OFFSET_NEGATIVE_BUILDER).value)
    ensures RangeGuard(selectSql, cls, offset, limit, OFFSET_NEGATIVE_BUILDER).None? ==>
              r == run(selectSql.value, cls.value, offset.value, limit.value)
  {
    if cls.Some? && selectSql.None? then Err(NullPointer)
    else
      match RangeGuard(selectSql, cls, offset, limit, OFFSET_NEGATIVE_BUILDER)
      case Some(f) => Err(f)
      case None => run(selectSql.value, cls.value, offset.value, limit.value)
  }

  /** A rejected offset/limit call never reaches the executor: its outcome is the same whatever
      the executor would have done. */
  lemma RangeRejectedBeforeExecutor<T>(sql: Option<string>, cls: Option<EntityClass>,
                                       offset: Option<int>, limit: Option<int>,
                                       run1: (string, EntityClass, int, int) -> Result<seq<T>>,
                                       run2: (string, EntityClass, int, int) -> Result<seq<T>>)
    requires RangeGuard(sql, cls, offset, limit, OFFSET_NEGATIVE).Some?
    ensures FindRange(sql, cls, offset, limit, run1) == FindRange(sql, cls, offset, limit, run2)
    ensures FindRange(sql, cls, offset, limit, run1).Err?
  {}

  /** The same for the SQL-builder overload: a rejected call, null builder included, is an error
      that does not depend on the executor. */
  lemma BuilderRangeRejectedBeforeExecutor<T>(selectSql: Option<string>, cls: Option<EntityClass>,
                                              offset: Option<int>, limit: Option<int>,
                                              run1: (string, EntityClass, int, int) -> Result<seq<T>>,
                                              run2: (string, EntityClass, int, int) -> Result<seq<T>>)
    requires RangeGuard(selectSql, cls, offset, limit, OFFSET_NEGATIVE_BUILDER).Some?
    ensures FindBuilderRange(selectSql, cls, offset, limit, run1) ==
            FindBuilderRange(selectSql, cls, offset, limit, run2)
    ensures FindBuilderRange(selectSql, cls, offset, limit, run1).Err?
  {}

  // ----- key-based operations ---------------------------------------------------------------

  /** getByPrimaryKey(Class, Serializable): class and key must be non-null; an executor that
      signals "no row" yields null instead of an error, every other outcome is passed on. */
  function GetByPrimaryKey<K, T>(cls: Option<EntityClass>, key: Option<K>,
                                 run: (EntityClass, K) -> Result<T>): (r: Result<Option<T>>)
    ensures cls.None? ==> r == Err(IllegalArgument(ENTITY_TYPE_EMPTY))
    ensures cls.Some? && key.None? ==> r == Err(IllegalArgument(PRIMARY_KEY_EMPTY))
    ensures r.Err? ==> r.failure != EmptyResult
    ensures r == Ok(None) <==>
              cls.Some? && key.Some? && run(cls.value, key.value) == Err(EmptyResult)
    ensures r.Ok? && r.value.Some? ==>
              cls.Some? && key.Some? && run(cls.value, key.value) == Ok(r.value.value)
    ensures cls.Some? && key.Some? && run(cls.value, key.value).Ok? ==>
              r == Ok(Some(run(cls.value, key.value).value))
    ensures cls.Some? && key.Some? && run(cls.value, key.value).Err? &&
            run(cls.value, key.value).failure != EmptyResult ==>
              r == Err(run(cls.value, key.value).failure)
  {
    if cls.None? then Err(IllegalArgument(ENTITY_TYPE_EMPTY))
    else if key.None? then Err(IllegalArgument(PRIMARY_KEY_EMPTY))
    else
      match run(cls.value, key.value)
      case Ok(entity) => Ok(Some(entity))
      case Err(EmptyResult) => Ok(None)
      case Err(f) => Err(f)
  }

  /** deleteByPrimaryKey(Class, Serializable): class non-null, key non-null and a key whose
      string form (`show`) has text; only then does the delete executor run. */
  function DeleteByPrimaryKey<K>(cls: Option<EntityClass>, key: Option<K>, show: K -> string,
                                 run: (EntityClass, K) -> Result<int>): (r: Result<int>)
    ensures cls.None? ==> r == Err(IllegalArgument(ENTITY_TYPE_EMPTY))
    ensures cls.Some? && (key.None? || !HasText(Some(show(key.value)))) ==>
              r == Err(IllegalArgument(PRIMARY_KEY_EMPTY))
    ensures cls.Some? && key.Some? && HasText(Some(show(key.value))) ==>
              r == run(cls.value, key.value)
  {
    if cls.None? then Err(IllegalArgument(ENTITY_TYPE_EMPTY))
    else if key.None? then Err(IllegalArgument(PRIMARY_KEY_EMPTY))
    else if !HasText(Some(show(key.value))) then Err(IllegalArgument(PRIMARY_KEY_EMPTY))
    else run(cls.value, key.value)
  }

  /** The two key operations guard the key differently: a key that prints as blank is looked up
      by getByPrimaryKey but refused by deleteByPrimaryKey. */
  lemma BlankKeyGuardsDiffer<T>(cls: EntityClass, getRun: (EntityClass, string) -> Result<T>,
                                deleteRun: (EntityClass, string) -> Result<int>)
    ensures DeleteByPrimaryKey(Some(cls), Some(" "), k => k, deleteRun) ==
              Err(IllegalArgument(PRIMARY_KEY_EMPTY))
    ensures GetByPrimaryKey(Some(cls), Some(" "), getRun).Ok? <==>
              getRun(cls, " ").Ok? || getRun(cls, " ") == Err(EmptyResult)
  {}

  // ----- batches ----------------------------------------------------------------------------

  /** Sum of per-statement update counts. */
  function Sum(counts: seq<int>): int
  {
    if counts == [] then 0 else counts[0] + Sum(counts[1..])
  }

  /** The shape of batchInsert and batchUpdate: a null or empty list is refused before the batch
      executor runs; otherwise the result is the NUMBER of per-statement counts, not their sum. */
  function Batch<E>(persistents: Option<seq<E>>, emptyMessage: string,
                    run: seq<E> -> Result<seq<int>>): (r: Result<int>)
    ensures persistents.None? || persistents.value == [] ==> r == Err(IllegalArgument(emptyMessage))
    ensures r.Ok? ==> persistents.Some? && persistents.value != [] &&
                      run(persistents.value).Ok? && r.value == |run(persistents.value).value|
    ensures persistents.Some? && persistents.value != [] && run(persistents.value).Ok? ==>
              r == Ok(|run(persistents.value).value|)
    ensures persistents.Some? && persistents.value != [] && run(persistents.value).Err? ==>
              r == Err(run(persistents.value).failure)
  {
    if persistents.None? || persistents.value == [] then Err(IllegalArgument(emptyMessage))
    else
      match run(persistents.value)
      case Err(f) => Err(f)
      case Ok(rows) => Ok(|rows|)
  }

  /** batchInsert(List) */
  function BatchInsert<E>(persistents: Option<seq<E>>, run: seq<E> -> Result<seq<int>>): (r: Result<int>)
    ensures persistents.None? || persistents.value == [] ==> r == Err(IllegalArgument(ENTITY_LIST_EMPTY))
    ensures r.Ok? ==> persistents.Some? && persistents.value != [] &&
                      run(persistents.value).Ok? && r.value == |run(persistents.value).value|
    ensures persistents.Some? && persistents.value != [] && run(persistents.value).Ok? ==>
              r == Ok(|run(persistents.value).value|)
    ensures persistents.Some? && persistents.value != [] && run(persistents.value).Err? ==>
              r == Err(run(persistents.value).failure)
  {
    Batch(persistents, ENTITY_LIST_EMPTY, run)
  }

  /** batchUpdate(List), whose empty-list message is cut short in the source. */
  function BatchUpdate<E>(persistents: Option<seq<E>>, run: seq<E> -> Result<seq<int>>): (r: Result<int>)
    ensures persistents.None? || persistents.value == [] ==> r == Err(IllegalArgument(ENTITY_LIST_EMPTY_UPDATE))
    ensures r.Ok? ==> persistents.Some? && persistents.value != [] &&
                      run(persistents.value).Ok? && r.value == |run(persistents.value).value|
    ensures persistents.Some? && persistents.value != [] && run(persistents.value).Ok? ==>
              r == Ok(|run(persistents.value).value|)
    ensures persistents.Some? && persistents.value != [] && run(persistents.value).Err? ==>
              r == Err(run(persistents.value).failure)
  {
    Batch(persistents, ENTITY_LIST_EMPTY_UPDATE, run)
  }

  /** The count a batch returns equals the rows it changed exactly when every statement changed
      one row. */
  lemma {:induction false} LengthIsSumOfSingleRowCounts(counts: seq<int>)
    requires forall i :: 0 <= i < |counts| ==> counts[i] == 1
    ensures Sum(counts) == |counts|
  {
    if counts != [] {
      LengthIsSumOfSingleRowCounts(counts[1..]);
    }
  }

  /** With an executor reporting one row per statement, batchInsert returns the number of
      entities, which is then also the number of rows inserted. */
  lemma {:induction false} BatchInsertCountsEntities<E>(persistents: seq<E>, run: seq<E> -> Result<seq<int>>)
    requires persistents != []
    requires run(persistents).Ok? && |run(persistents).value| == |persistents|
    requires forall i :: 0 <= i < |run(persistents).value| ==> run(persistents).value[i] == 1
    ensures BatchInsert(Some(persistents), run) == Ok(|persistents|)
    ensures BatchInsert(Some(persistents), run).value == Sum(run(persistents).value)
  {
    LengthIsSumOfSingleRowCounts(run(persistents).value);
  }

  /** When a statement changes several rows, the returned count is not the number of rows
      changed: two statements of two rows each return 2, not 4. */
  lemma BatchCountIsNotRowTotal<E>(a: E, b: E)
    ensures var run := (es: seq<E>) => Ok([2, 2]);
            BatchUpdate(Some([a, b]), run) == Ok(2) && Sum([2, 2]) == 4
  {}

  // ----- findAll with a page ----------------------------------------------------------------

  /** The paging request a caller passes (the getters of PageInfo that findAll reads). */
  datatype PageRequest = PageRequest(pageNum: int, pageSize: int, offset: int, limit: int)

  /** The paging mode an Example carries into its query. */
  datatype PagingMode =
    | Unpaged
    | ByPageNumber(pageNum: int, pageSize: int)
    | ByOffset(offset: int, limit: int)

  /** The mode findAll selects: offset -1 is the sentinel for page-number mode, validated on
      pageNum and pageSize; any other offset selects offset mode, validated on offset and limit. */
  function SelectMode(page: PageRequest): (r: Result<PagingMode>)
    ensures r.Ok? ==> !r.value.Unpaged?
    ensures r.Ok? ==> (r.value.ByPageNumber? <==> page.offset == -1)
    ensures page.offset == -1 ==>
              (r.Ok? <==> page.pageNum >= 1 && page.pageSize > 0) &&
              (r.Ok? ==> r.value == ByPageNumber(page.pageNum, page.pageSize))
    ensures page.offset != -1 ==>
              (r.Ok? <==> page.offset >= 0 && page.limit > 0) &&
              (r.Ok? ==> r.value == ByOffset(page.offset, page.limit))
    ensures r.Err? ==> r.failure.IllegalArgument?
  {
    if page.offset == -1 then
      if page.pageNum < 1 then Err(IllegalArgument(PAGE_NUM_TOO_SMALL))
      else if page.pageSize <= 0 then Err(IllegalArgument(PAGE_SIZE_TOO_SMALL))
      else Ok(ByPageNumber(page.pageNum, page.pageSize))
    else
      if page.offset < 0 then Err(IllegalArgument(OFFSET_NEGATIVE_PAGE))
      else if page.limit <= 0 then Err(IllegalArgument(LIMIT_TOO_SMALL))
      else Ok(ByOffset(page.offset, page.limit))
  }

  /** In page-number mode the limit is never read; in offset mode pageNum and pageSize are never
      read: exactly one pair of fields decides the outcome. */
  lemma OneModeDecides(page: PageRequest, other: PageRequest)
    ensures page.offset == -1 && other.offset == -1 &&
            page.pageNum == other.pageNum && page.pageSize == other.pageSize ==>
              SelectMode(page) == SelectMode(other)
    ensures page.offset != -1 && page.offset == other.offset && page.limit == other.limit ==>
              SelectMode(page) == SelectMode(other)
  {}

  /** The query an entity class starts from; findAll only sets its paging. */
  class Example {
    const persistentClass: EntityClass
    var mode: PagingMode

    constructor (persistentClass: EntityClass)
      ensures this.persistentClass == persistentClass && mode == Unpaged
    {
      this.persistentClass := persistentClass;
      mode := Unpaged;
    }

    /** pageInfo(pageNum, pageSize) */
    method PageInfo(pageNum: int, pageSize: int)
      modifies this
      ensures mode == ByPageNumber(pageNum, pageSize)
    {
      mode := ByPageNumber(pageNum, pageSize);
    }

    /** offsetPage(offset, limit) */
    method OffsetPage(offset: int, limit: int)
      modifies this
      ensures mode == ByOffset(offset, limit)
    {
      mode := ByOffset(offset, limit);
    }
  }

  /** findAll(Class, PageInfo): checks the class, starts an Example for it, puts it in exactly one
      paging mode (or fails on that mode's guard) and lists it; `list` stands for the Example's
      query. A null page fails when its offset is read. */
  method FindAll<T>(cls: Option<EntityClass>, page: Option<PageRequest>,
                    list: (EntityClass, PagingMode) -> Result<seq<T>>) returns (r: Result<seq<T>>)
    ensures cls.None? ==> r == Err(IllegalArgument(ENTITY_TYPE_EMPTY))
    ensures cls.Some? && page.None? ==> r == Err(NullPointer)
    ensures cls.Some? && page.Some? ==>
              match SelectMode(page.value)
              case Err(f) => r == Err(f)
              case Ok(mode) => r == list(cls.value, mode)
  {
    if cls.None? {
      return Err(IllegalArgument(ENTITY_TYPE_EMPTY));
    }
    var example := new Example(cls.value);
    if page.None? {
      return Err(NullPointer);
    }
    var p := page.value;
    if p.offset == -1 {
      if p.pageNum < 1 {
        return Err(IllegalArgument(PAGE_NUM_TOO_SMALL));
      }
      if p.pageSize <= 0 {
        return Err(IllegalArgument(PAGE_SIZE_TOO_SMALL));
      }
      example.PageInfo(p.pageNum, p.pageSize);
    } else {
      if p.offset < 0 {
        return Err(IllegalArgument(OFFSET_NEGATIVE_PAGE));
      }
      if p.limit <= 0 {
        return Err(IllegalArgument(LIMIT_TOO_SMALL));
      }
      example.OffsetPage(p.offset, p.limit);
    }
    r := list(example.persistentClass, example.mode);
  }

  // ----- findByPage -------------------------------------------------------------------------

  /** find(String sql, Class, PageInfo, Object...): class, then SQL text, then the executor. */
  function FindPage<T>(sql: Option<string>, cls: Option<EntityClass>, page: PageRequest,
                       run: (string, EntityClass, PageRequest) -> Result<seq<T>>): (r: Result<seq<T>>)
    ensures r.Ok? ==> cls.Some? && HasText(sql)
    ensures cls.Some? && HasText(sql) ==> r == run(sql.value, cls.value, page)
    ensures cls.None? ==> r == Err(IllegalArgument(ENTITY_TYPE_EMPTY))
    ensures cls.Some? && !HasText(sql) ==> r == Err(IllegalArgument(SQL_STATEMENT_EMPTY))
  {
    if cls.None? then Err(IllegalArgument(ENTITY_TYPE_EMPTY))
    else if !HasText(sql) then Err(IllegalArgument(SQL_STATEMENT_EMPTY))
    else run(sql.value, cls.value, page)
  }

  /** count(String sql, Object...): the SQL must have text before the count executor runs. */
  function Count(sql: Option<string>, run: string -> Result<int>): (r: Result<int>)
    ensures r.Ok? ==> HasText(sql)
    ensures HasText(sql) ==> r == run(sql.value)
    ensures !HasText(sql) ==> r == Err(IllegalArgument(SQL_STATEMENT_EMPTY))
  {
    if !HasText(sql) then Err(IllegalArgument(SQL_STATEMENT_EMPTY)) else run(sql.value)
  }

  /** findByPage(String sql, Class, PageInfo, Object...): the page's rows, the total count of the
      query, and the page number and size that `pageOf` (the accessor's pageInfo, outside this
      model) extracts from the request, combined into a new page result. */
  method FindByPage<T>(sql: Option<string>, cls: Option<EntityClass>, page: PageRequest,
                       run: (string, EntityClass, PageRequest) -> Result<seq<T>>,
                       count: string -> Result<int>,
                       pageOf: PageRequest -> (int, int))
    returns (r: Result<Paging.PageInfoImpl<T>>)
    requires FindPage(sql, cls, page, run).Ok? && Count(sql, count).Ok? ==>
               0 <= Count(sql, count).value < Paging.INT_MAX &&
               Paging.IsInt(pageOf(page).0) && 0 < pageOf(page).1 <= Paging.INT_MAX
    ensures r.Ok? <==> FindPage(sql, cls, page, run).Ok? && Count(sql, count).Ok?
    ensures FindPage(sql, cls, page, run).Err? ==> r == Err(FindPage(sql, cls, page, run).failure)
    ensures FindPage(sql, cls, page, run).Ok? && Count(sql, count).Err? ==>
              r == Err(Count(sql, count).failure)
    ensures r.Ok? ==> fresh(r.value)
    ensures r.Ok? ==>
              r.value.list == FindPage(sql, cls, page, run).value &&
              r.value.total == Count(sql, count).value &&
              r.value.pageSize == pageOf(page).1 &&
              r.value.Fields() ==
                Paging.Derived(Count(sql, count).value, pageOf(page).0, pageOf(page).1)
  {
    var rows := FindPage(sql, cls, page, run);
    if rows.Err? {
      return Err(rows.failure);
    }
    var total := Count(sql, count);
    if total.Err? {
      return Err(total.failure);
    }
    var (pageNum, pageSize) := pageOf(page);
    var info := new Paging.PageInfoImpl(rows.value, total.value, pageNum, pageSize);
    r := Ok(info);
  }

  // ----- building a template ----------------------------------------------------------------

  /** Spring's JdbcTemplate, opaque here. */
  class JdbcTemplate {
    constructor () {}
  }

  /** A JDBC DataSource, opaque here. */
  class DataSource {
    constructor () {}
  }

  /** The configuration an EasyJdbcTemplate is built with. */
  class EasyJdbcTemplate {
    var jdbcTemplate: JdbcTemplate
    var dataSource: DataSource?
    var dialectName: Option<string>
    var useLocalCache: bool
    var showSQL: bool

    /** The public no-argument constructor: a new JdbcTemplate. The other settings take the
        accessor's defaults, which are not part of this model. */
    constructor Default()
      ensures fresh(jdbcTemplate)
    {
      jdbcTemplate := new JdbcTemplate();
      dataSource := null;
      dialectName := None;
      useLocalCache := false;
      showSQL := false;
    }

    /** The constructor Builder.build uses: the builder's JdbcTemplate when one was set, a new
        one otherwise; every other setting copied from the builder. */
    constructor FromBuilder(builder: Builder)
      ensures builder.jdbcTemplate != null ==> jdbcTemplate == builder.jdbcTemplate
      ensures builder.jdbcTemplate == null ==> fresh(jdbcTemplate)
      ensures dataSource == builder.dataSource && dialectName == builder.dialectName
      ensures useLocalCache == builder.useLocalCache && showSQL == builder.showSQL
    {
      if builder.jdbcTemplate != null {
        jdbcTemplate := builder.jdbcTemplate;
      } else {
        jdbcTemplate := new JdbcTemplate();
      }
      dataSource := builder.dataSource;
      dialectName := builder.dialectName;
      useLocalCache := builder.useLocalCache;
      showSQL := builder.showSQL;
    }
  }

  /** EasyJdbcTemplate.Builder: each setter overwrites its own field and returns the builder. */
  class Builder {
    var jdbcTemplate: JdbcTemplate?
    var dataSource: DataSource?
    var dialectName: Option<string>
    var useLocalCache: bool
    var showSQL: bool

    constructor ()
      ensures jdbcTemplate == null && dataSource == null && dialectName == None
      ensures !useLocalCache && !showSQL
    {
      jdbcTemplate := null;
      dataSource := null;
      dialectName := None;
      useLocalCache := false;
      showSQL := false;
    }

    method WithJdbcTemplate(jdbcTemplate: JdbcTemplate?) returns (self: Builder)
      modifies this
      ensures self == this && this.jdbcTemplate == jdbcTemplate
      ensures unchanged(this`dataSource, this`dialectName, this`useLocalCache, this`showSQL)
    {
      this.jdbcTemplate := jdbcTemplate;
      self := this;
    }

    method WithDataSource(dataSource: DataSource?) returns (self: Builder)
      modifies this
      ensures self == this && this.dataSource == dataSource
      ensures unchanged(this`jdbcTemplate, this`dialectName, this`useLocalCache, this`showSQL)
    {
      this.dataSource := dataSource;
      self := this;
    }

    method WithDialectName(dialectName: Option<string>) returns (self: Builder)
      modifies this
      ensures self == this && this.dialectName == dialectName
      ensures unchanged(this`jdbcTemplate, this`dataSource, this`useLocalCache, this`showSQL)
    {
      this.dialectName := dialectName;
      self := this;
    }

    /** The supplier overload: the supplier is asked once, now, and its value stored. */
    method WithDialectNameFrom(supplier: () -> Option<string>) returns (self: Builder)
      modifies this
      ensures self == this && this.dialectName == supplier()
      ensures unchanged(this`jdbcTemplate, this`dataSource, this`useLocalCache, this`showSQL)
    {
      this.dialectName := supplier();
      self := this;
    }

    method WithUseLocalCache(useLocalCache: bool) returns (self: Builder)
      modifies this
      ensures self == this && this.useLocalCache == useLocalCache
      ensures unchanged(this`jdbcTemplate, this`dataSource, this`dialectName, this`showSQL)
    {
      this.useLocalCache := useLocalCache;
      self := this;
    }

    method WithUseLocalCacheFrom(supplier: () -> bool) returns (self: Builder)
      modifies this
      ensures self == this && this.useLocalCache == supplier()
      ensures unchanged(this`jdbcTemplate, this`dataSource, this`dialectName, this`showSQL)
    {
      this.useLocalCache := supplier();
      self := this;
    }

    method WithShowSQL(showSQL: bool) returns (self: Builder)
      modifies this
      ensures self == this && this.showSQL == showSQL
      ensures unchanged(this`jdbcTemplate, this`dataSource, this`dialectName, this`useLocalCache)
    {
      this.showSQL := showSQL;
      self := this;
    }

    method WithShowSQLFrom(supplier: () -> bool) returns (self: Builder)
      modifies this
      ensures self == this && this.showSQL == supplier()
      ensures unchanged(this`jdbcTemplate, this`dataSource, this`dialectName, this`useLocalCache)
    {
      this.showSQL := supplier();
      self := this;
    }

    method Build() returns (template: EasyJdbcTemplate)
      ensures fresh(template)
      ensures jdbcTemplate != null ==> template.jdbcTemplate == jdbcTemplate
      ensures jdbcTemplate == null ==> fresh(template.jdbcTemplate)
      ensures template.dataSource == dataSource && template.dialectName == dialectName
      ensures template.useLocalCache == useLocalCache && template.showSQL == showSQL
    {
      template := new EasyJdbcTemplate.FromBuilder(this);
    }
  }

  /** A chained configuration as a caller writes it: the later dialect call wins, the earlier
      settings survive it, and without a JdbcTemplate the built template gets a new one. */
  method ChainedBuild(first: string, second: string) returns (template: EasyJdbcTemplate)
    ensures template.dialectName == Some(second)
    ensures template.showSQL && !template.useLocalCache && template.dataSource == null
    ensures fresh(template.jdbcTemplate)
  {
    var b := new Builder();
    b := b.WithShowSQL(true);
    b := b.WithDialectName(Some(first));
    b := b.WithDialectName(Some(second));
    template := b.Build();
  }
}
