# easyjdbc paging and template guards in Dafny

This project models two parts of easyjdbc, a JDBC access layer built on Spring's JdbcTemplate.

- **The page result** (`page_info.dfy`, module `Paging`). The four-argument `PageInfoImpl`
  constructor takes a list of rows, the total row count, a requested page number and a page
  size. It derives the page actually shown, the page count, the previous and next pages with
  their flags, and the offset of the first row. `PageInfoImpl` is a class. Its constructor
  assigns the fields in the source's order: the page number is raised to 1, the previous page
  is taken from it, and only then is the page number clamped to the page count. The constructor
  is proved equal to `Derived`, a declarative definition of the same fields, and the paging
  properties are proved about `Derived`.
- **The public operations of `EasyJdbcTemplate`** (`easy_jdbc_template.dfy`, module `EasyJdbc`).
  Each operation is modelled as three steps: its argument guards in source order, one call of
  an executor (two for `findByPage`: the paged find and the count), and the shaping of the executor's result. Executors are function parameters.
  Java `null` is `None`. A thrown exception is an `Err` carrying a `Failure`. `findAll` with a
  page is a method: it creates an `Example`, sets exactly one paging mode on it, and lists it.
  The fluent `Builder` and the template it builds are classes.

Two behaviours of the code to note:

- For 45 rows, 10 per page, page 10 requested, the previous page is 9 (the requested page minus
  one), not 4 (the shown page 5 minus one). The previous page is computed before the clamp.
- `batchInsert` and `batchUpdate` return the number of per-statement results, not a total of
  the rows changed.

## Model

| member | source | states |
|---|---|---|
| `Paging.CeilDiv` | easyjdbc/src/main/java/com/xphsc/easyjdbc/page/PageInfoImpl.java:29 | the page count n is the ceiling of total / pageSize: (n-1)*pageSize < total <= n*pageSize |
| `Paging.Derived` | easyjdbc/src/main/java/com/xphsc/easyjdbc/page/PageInfoImpl.java:13-43 | the shown page is at most the page count, and at least 1 when there is a page; a page inside the range is kept; a page past the last page becomes the page count; prePage is at least 1; hasPrePage holds iff the requested page is at least 2, and then prePage is that page minus 1 (even past the last page); nextPage is at most the page count; hasNextPage holds iff shown page + 1 <= page count, and otherwise nextPage is the page count; offset = (shown page - 1) * pageSize |
| `Paging.PageInfoImpl.constructor` | easyjdbc/src/main/java/com/xphsc/easyjdbc/page/PageInfoImpl.java:13-43 | assigning in the source's order (raise, prePage, page count, clamp, nextPage, offset) yields exactly the fields of `Derived`; list, total and pageSize are stored as given |
| `Paging.TotalPagesIsCeiling` | easyjdbc/src/main/java/com/xphsc/easyjdbc/page/PageInfoImpl.java:29 | for a non-negative total the page count is non-negative, zero iff there are no rows, and is the exact ceiling of total / pageSize |
| `Paging.EmptyTotal` | easyjdbc/src/main/java/com/xphsc/easyjdbc/page/PageInfoImpl.java:29-42 | with no rows the page count and the page number end at 0, there is no next page, and the offset is -pageSize |
| `Paging.OffsetIsARow` | easyjdbc/src/main/java/com/xphsc/easyjdbc/page/PageInfoImpl.java:42 | with at least one row the offset is the index of a row: 0 <= offset < total |
| `Paging.FieldsFitInInt` | easyjdbc/src/main/java/com/xphsc/easyjdbc/page/PageInfoImpl.java:13-43 | for the modelled arguments every derived field, and pageNum + 1, fits a Java int, so the unbounded model agrees with the 32-bit source |
| `Paging.BelowOneActsAsOne` | easyjdbc/src/main/java/com/xphsc/easyjdbc/page/PageInfoImpl.java:14-17 | a requested page below 1 derives exactly the same fields as page 1 |
| `Paging.ClampExample` | easyjdbc/src/main/java/com/xphsc/easyjdbc/page/PageInfoImpl.java:13-43 | 45 rows, 10 per page, page 10: pageNum 5, prePage 9, hasPrePage, totalPages 5, nextPage 5, no next page, offset 40 |
| `EasyJdbc.Find` | easyjdbc-core/src/main/java/com/xphsc/easyjdbc/EasyJdbcTemplate.java:348-355 | a null class, then SQL without text, is refused; otherwise the executor's rows are returned |
| `EasyJdbc.Get` | easyjdbc-core/src/main/java/com/xphsc/easyjdbc/EasyJdbcTemplate.java:234-238 | succeeds iff `find` does, with the same failure otherwise; the result is null iff `find` returned no rows, and otherwise is the first row |
| `EasyJdbc.RangeGuard` | easyjdbc-core/src/main/java/com/xphsc/easyjdbc/EasyJdbcTemplate.java:396-400 | the offset/limit guard passes iff the class is non-null, the SQL has text, the offset is a non-negative non-null Integer and the limit a positive one |
| `EasyJdbc.FindRange` | easyjdbc-core/src/main/java/com/xphsc/easyjdbc/EasyJdbcTemplate.java:396-405 | a negative offset or a non-positive limit makes the call fail (with the offset's or limit's argument error once the checks before it pass); a failing guard yields exactly its failure; when the guard passes the executor's rows for that offset and limit are returned |
| `EasyJdbc.FindBuilderRange` | easyjdbc-core/src/main/java/com/xphsc/easyjdbc/EasyJdbcTemplate.java:298-307 | the same guard over the SQL builder's text, with its own offset message; a null builder fails on rendering; any other failing guard yields exactly its failure; when the guard passes the executor's rows are returned |
| `EasyJdbc.RangeRejectedBeforeExecutor` | easyjdbc-core/src/main/java/com/xphsc/easyjdbc/EasyJdbcTemplate.java:396-401 | when the guard fails the outcome is an error and does not depend on the executor at all |
| `EasyJdbc.BuilderRangeRejectedBeforeExecutor` | easyjdbc-core/src/main/java/com/xphsc/easyjdbc/EasyJdbcTemplate.java:298-303 | for the SQL-builder overload too, a failing guard gives an error that does not depend on the executor |
| `EasyJdbc.GetByPrimaryKey` | easyjdbc-core/src/main/java/com/xphsc/easyjdbc/EasyJdbcTemplate.java:212-225 | a null class or key is refused; the result is null iff the executor signalled an empty result; an entity the executor finds is returned as is; every other failure propagates, and an empty-result failure never does |
| `EasyJdbc.DeleteByPrimaryKey` | easyjdbc-core/src/main/java/com/xphsc/easyjdbc/EasyJdbcTemplate.java:123-131 | a null class, a null key, or a key whose string form is blank is refused; otherwise the delete executor's count is returned |
| `EasyJdbc.BlankKeyGuardsDiffer` | easyjdbc-core/src/main/java/com/xphsc/easyjdbc/EasyJdbcTemplate.java:123-127 | a key printing as a blank is refused by the delete but reaches the executor in the key lookup |
| `EasyJdbc.Batch` | easyjdbc-core/src/main/java/com/xphsc/easyjdbc/EasyJdbcTemplate.java:98-104 | a null or empty list is refused with the given message; for a non-empty list a succeeding executor gives exactly the number of per-statement counts, and a failing one its failure |
| `EasyJdbc.BatchInsert` | easyjdbc-core/src/main/java/com/xphsc/easyjdbc/EasyJdbcTemplate.java:98-104 | batchInsert refuses a null or empty list; for a non-empty list it returns exactly the number of per-statement counts when the executor succeeds, and the executor's failure otherwise |
| `EasyJdbc.BatchUpdate` | easyjdbc-core/src/main/java/com/xphsc/easyjdbc/EasyJdbcTemplate.java:185-191 | batchUpdate refuses a null or empty list with its own message; for a non-empty list it returns exactly the number of per-statement counts when the executor succeeds, and the executor's failure otherwise |
| `EasyJdbc.LengthIsSumOfSingleRowCounts` | easyjdbc-core/src/main/java/com/xphsc/easyjdbc/EasyJdbcTemplate.java:103 | when every statement reports one row, the number of counts equals their sum |
| `EasyJdbc.BatchInsertCountsEntities` | easyjdbc-core/src/main/java/com/xphsc/easyjdbc/EasyJdbcTemplate.java:98-104 | with one row per entity, batchInsert returns the number of entities, which is also the number of rows inserted |
| `EasyJdbc.BatchCountIsNotRowTotal` | easyjdbc-core/src/main/java/com/xphsc/easyjdbc/EasyJdbcTemplate.java:185-191 | two statements changing two rows each make batchUpdate return 2 while 4 rows changed |
| `EasyJdbc.SelectMode` | easyjdbc-core/src/main/java/com/xphsc/easyjdbc/EasyJdbcTemplate.java:259-267 | offset -1 selects page-number mode, which succeeds iff pageNum >= 1 and pageSize > 0; any other offset selects offset mode, which succeeds iff offset >= 0 and limit > 0; a selected mode is never "unpaged" |
| `EasyJdbc.OneModeDecides` | easyjdbc-core/src/main/java/com/xphsc/easyjdbc/EasyJdbcTemplate.java:259-267 | in page-number mode offset and limit do not affect the outcome; in offset mode pageNum and pageSize do not |
| `EasyJdbc.Example.constructor` | easyjdbc-core/src/main/java/com/xphsc/easyjdbc/EasyJdbcTemplate.java:529-536 | a new Example is bound to its class and has no paging |
| `EasyJdbc.Example.PageInfo` | easyjdbc-core/src/main/java/com/xphsc/easyjdbc/EasyJdbcTemplate.java:262 | puts the Example in page-number mode with the given page and size |
| `EasyJdbc.Example.OffsetPage` | easyjdbc-core/src/main/java/com/xphsc/easyjdbc/EasyJdbcTemplate.java:266 | puts the Example in offset mode with the given offset and limit |
| `EasyJdbc.FindAll` | easyjdbc-core/src/main/java/com/xphsc/easyjdbc/EasyJdbcTemplate.java:256-270 | a null class is refused first, a null page fails on reading its offset; otherwise the failure of the mode guard, or the listing of the Example in exactly the mode `SelectMode` selects |
| `EasyJdbc.FindPage` | easyjdbc-core/src/main/java/com/xphsc/easyjdbc/EasyJdbcTemplate.java:372-379 | a null class, then SQL without text, is refused; otherwise the executor's result, success or failure, is returned |
| `EasyJdbc.Count` | easyjdbc-core/src/main/java/com/xphsc/easyjdbc/EasyJdbcTemplate.java:432-438 | SQL without text is refused; otherwise the count executor's result, success or failure, is returned |
| `EasyJdbc.FindByPage` | easyjdbc-core/src/main/java/com/xphsc/easyjdbc/EasyJdbcTemplate.java:381-386 | succeeds iff both the paged find and the count do; a failing find, or else a failing count, gives its own failure; the page result is a new object holding the rows found and the count, and its derived fields are those `Derived` gives for the count and the page number and size taken from the request |
| `EasyJdbc.EasyJdbcTemplate.Default` | easyjdbc-core/src/main/java/com/xphsc/easyjdbc/EasyJdbcTemplate.java:50-52 | the no-argument template gets a new JdbcTemplate; its other settings are not promised |
| `EasyJdbc.EasyJdbcTemplate.FromBuilder` | easyjdbc-core/src/main/java/com/xphsc/easyjdbc/EasyJdbcTemplate.java:546-558 | the builder's JdbcTemplate is used when set, a new one otherwise; data source, dialect name, cache and SQL-echo flags are copied |
| `EasyJdbc.Builder.constructor` | easyjdbc-core/src/main/java/com/xphsc/easyjdbc/EasyJdbcTemplate.java:622-623 | a new builder has every reference null and every flag false |
| `EasyJdbc.Builder.WithJdbcTemplate` | easyjdbc-core/src/main/java/com/xphsc/easyjdbc/EasyJdbcTemplate.java:571-574 | sets only the JdbcTemplate and returns the same builder |
| `EasyJdbc.Builder.WithDataSource` | easyjdbc-core/src/main/java/com/xphsc/easyjdbc/EasyJdbcTemplate.java:583-586 | sets only the data source and returns the same builder |
| `EasyJdbc.Builder.WithDialectName` | easyjdbc-core/src/main/java/com/xphsc/easyjdbc/EasyJdbcTemplate.java:592-595 | sets only the dialect name and returns the same builder |
| `EasyJdbc.Builder.WithDialectNameFrom` | easyjdbc-core/src/main/java/com/xphsc/easyjdbc/EasyJdbcTemplate.java:597-600 | stores the supplier's value at the time of the call, changes nothing else, returns the same builder |
| `EasyJdbc.Builder.WithUseLocalCache` | easyjdbc-core/src/main/java/com/xphsc/easyjdbc/EasyJdbcTemplate.java:603-606 | sets only the cache flag and returns the same builder |
| `EasyJdbc.Builder.WithUseLocalCacheFrom` | easyjdbc-core/src/main/java/com/xphsc/easyjdbc/EasyJdbcTemplate.java:607-610 | stores the supplier's value at the time of the call, changes nothing else, returns the same builder |
| `EasyJdbc.Builder.WithShowSQL` | easyjdbc-core/src/main/java/com/xphsc/easyjdbc/EasyJdbcTemplate.java:613-616 | sets only the SQL-echo flag and returns the same builder |
| `EasyJdbc.Builder.WithShowSQLFrom` | easyjdbc-core/src/main/java/com/xphsc/easyjdbc/EasyJdbcTemplate.java:618-621 | stores the supplier's value at the time of the call, changes nothing else, returns the same builder |
| `EasyJdbc.Builder.Build` | easyjdbc-core/src/main/java/com/xphsc/easyjdbc/EasyJdbcTemplate.java:624-626 | a fresh template whose JdbcTemplate is the builder's, or a fresh one when none was set, and whose other settings are the builder's |
| `EasyJdbc.ChainedBuild` | easyjdbc-core/src/main/java/com/xphsc/easyjdbc/EasyJdbcTemplate.java:564-627 | in a chain of setters the later dialect call wins, an earlier flag survives, and an unset JdbcTemplate becomes a new one |

## Left out

- Paging.PageInfoImpl.constructor: modelled only for a Java-int page number, 0 < pageSize, and 0 <= total < 2^31 - 1. In this range no int cast saturates and neither `pageNum + 1` nor `(pageNum - 1) * pageSize` wraps. Negative totals, larger totals and 32-bit wrap-around are not modelled.
- Paging.CeilDiv: exact integer ceiling. The source computes it with `Math.ceil` on doubles. A zero page size (NaN or infinity cast to int) and precision loss for totals above 2^53 are not modelled.
- The fields `PageInfoImpl` inherits from `PageInfo` and does not set (such as `limit`), and its no-argument constructor. `PageInfo` is not part of this model.
- Executors (insert, batch, update, delete, find, count, stored-procedure call), the `Example` query builder beyond its paging mode, and the `SQL` builder. These are function parameters or opaque values. The varargs query parameters are only passed to executors and are dropped.
- The `Assert` utility is not part of this model. Its checks are taken to be: `notNull` refuses null, `notEmpty` refuses a null or empty list, `isTrue` refuses false, and `hasText` refuses null and all-whitespace text. `HasText` counts only the ASCII characters Java treats as whitespace, not Unicode space separators.
- EasyJdbc.GetByPrimaryKey: an executor returning a null entity cannot be told apart from "not found" in the source. The model always wraps a returned entity in `Some`.
- EasyJdbc.FindByPage: when both the paged find and the count succeed, requires the count to be a row count that fits the page arithmetic, and the page number and size taken from the request to be Java ints with a positive size. Calls whose find or count fails are not restricted. The accessor's `pageInfo(page)` is not part of this model and is a function parameter. The `SQL` and offset/limit overloads of `findByPage` are not modelled.
- Other public operations that only guard and delegate: `insert`, `insertWithNull`, `insertKey`, `insert(SQL)`, `deleteByIds`, `delete(SQL)`, `update`, `update(SQL)`, `findAll(Class)`, the `SQL`-builder `find` overloads without a range (`find(SQL, Class)` and `find(SQL, Class, PageInfo)`), the map-returning `find`, `findByIds`, `count(Class)`, `call`, `execute`, `selector`, `example` and `clear`. They follow the shape of the operations above and are not modelled.
- The deprecated `*ByExample` methods. They only set two fields of the Example and delegate.
- The `LambdaSupplier` overloads of the Builder's `jdbcTemplate` and `dataSource` setters. They resolve their value by reflection, which is not part of this model.
- EasyJdbc.EasyJdbcTemplate.Default: promises only the new JdbcTemplate. The defaults of the data source, dialect name, cache flag and SQL-echo flag belong to the accessor superclass, which is not part of this model.
- What the accessor's setters and `afterPropertiesSet` do with the configuration. The template stores the values it receives. The default `JdbcTemplate` supplier is modelled as creating the instance at construction.
