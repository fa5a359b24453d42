/**
 * The SQL the task repository builds: column names converted from camelCase,
 * the `UPDATE` and `SELECT` texts with numbered `$n` placeholders, and the
 * value lists bound to them. The database itself is not part of the model:
 * a query is its text and its values.
 */
module SqlText {
  import opened Text

  /** A value bound to a placeholder. `Timestamp` is a `Date` in milliseconds. */
  datatype SqlValue = IntVal(i: int) | TextVal(s: string) | Timestamp(ms: int) | NullVal

  datatype Query = Query(text: string, values: seq<SqlValue>)

  predicate IsLowerLetter(c: char) { 'a' <= c <= 'z' }

  /** `key.replace(/([A-Z])/g, '_$1')`: an underscore before every capital. */
  function Underscored(key: string): (r: string)
    ensures |r| >= |key|
  {
    if key == [] then []
    else (if IsUpper(key[0]) then ['_', key[0]] else [key[0]]) + Underscored(key[1..])
  }

  /** The column name of an update key: `key.replace(/([A-Z])/g, '_$1').toLowerCase()`. */
  function SnakeCase(key: string): (r: string)
    ensures NoCapitals(r)
  {
    Lower(Underscored(key))
  }

  /** The number of capitals in a key. */
  function UpperCount(key: string): nat {
    if key == [] then 0 else (if IsUpper(key[0]) then 1 else 0) + UpperCount(key[1..])
  }

  /** The conversion unrolled by one character: a capital becomes an
      underscore and its lower-case letter, anything else is kept. */
  lemma SnakeCaseStep(key: string)
    requires key != []
    ensures SnakeCase(key) ==
      (if IsUpper(key[0]) then ['_', LowerChar(key[0])] else [key[0]]) + SnakeCase(key[1..])
  {
    LowerConcat(if IsUpper(key[0]) then ['_', key[0]] else [key[0]], Underscored(key[1..]));
  }

  /** Each capital adds one character, the underscore. */
  lemma {:induction false} SnakeCaseLength(key: string)
    ensures |SnakeCase(key)| == |key| + UpperCount(key)
  {
    if key != [] {
      SnakeCaseStep(key);
      SnakeCaseLength(key[1..]);
    }
  }

  /** A key without capitals is its own column name. */
  lemma {:induction false} SnakeCaseOfLowerKey(key: string)
    requires NoCapitals(key)
    ensures SnakeCase(key) == key
  {
    if key != [] {
      SnakeCaseStep(key);
      NoCapitalsTail(key);
      SnakeCaseOfLowerKey(key[1..]);
    }
  }

  /** Dropping the first character keeps a key free of capitals. */
  lemma NoCapitalsTail(key: string)
    requires key != [] && NoCapitals(key)
    ensures NoCapitals(key[1..])
  {
    forall i | 0 <= i < |key| - 1
      ensures !IsUpper(key[1..][i])
    {
      assert key[1..][i] == key[i + 1];
    }
  }

  /** The reverse conversion: an underscore followed by a lower-case letter
      becomes that letter's capital. */
  function CamelCase(column: string): string {
    if column == [] then []
    else if |column| >= 2 && column[0] == '_' && IsLowerLetter(column[1]) then
      [(column[1] as int - 32) as char] + CamelCase(column[2..])
    else [column[0]] + CamelCase(column[1..])
  }

  /** For keys without underscores the conversion loses nothing: the key is
      recovered from its column name, so distinct such keys name distinct
      columns. */
  lemma {:induction false} SnakeCaseRoundTrip(key: string)
    requires forall i :: 0 <= i < |key| ==> key[i] != '_'
    ensures CamelCase(SnakeCase(key)) == key
  {
    if key != [] {
      SnakeCaseStep(key);
      SnakeCaseRoundTrip(key[1..]);
      if IsUpper(key[0]) {
        var rest := SnakeCase(key[1..]);
        assert SnakeCase(key) == ['_', LowerChar(key[0])] + rest;
        assert SnakeCase(key)[2..] == rest;
      } else {
        assert SnakeCase(key)[1..] == SnakeCase(key[1..]);
      }
    }
  }

  /** Keys without capitals pass through `Underscored` unchanged. */
  lemma {:induction false} UnderscoredOfLowerKey(key: string)
    requires NoCapitals(key)
    ensures Underscored(key) == key
  {
    if key != [] {
      NoCapitalsTail(key);
      UnderscoredOfLowerKey(key[1..]);
    }
  }

  lemma {:induction false} UnderscoredConcat(a: string, b: string)
    ensures Underscored(a + b) == Underscored(a) + Underscored(b)
  {
    if a != [] {
      var head := if IsUpper(a[0]) then ['_', a[0]] else [a[0]];
      assert (a + b)[0] == a[0];
      assert (a + b)[1..] == a[1..] + b;
      calc {
        Underscored(a + b);
        head + Underscored(a[1..] + b);
        { UnderscoredConcat(a[1..], b); }
        head + (Underscored(a[1..]) + Underscored(b));
        (head + Underscored(a[1..])) + Underscored(b);
        Underscored(a) + Underscored(b);
      }
    } else {
      assert a + b == b;
    }
  }

  /** A capitalised word without further capitals gets one underscore, in
      front. */
  lemma UnderscoredCapitalised(word: string)
    requires word != [] && IsUpper(word[0]) && NoCapitals(word[1..])
    ensures Underscored(word) == "_" + word
  {
    UnderscoredOfLowerKey(word[1..]);
    assert "_" + word == ['_', word[0]] + word[1..];
  }

  /** A lower-case word followed by a capitalised one gets one underscore,
      at the join. */
  lemma UnderscoredTwoWords(first: string, second: string)
    requires second != [] && IsUpper(second[0])
    requires NoCapitals(first) && NoCapitals(second[1..])
    ensures Underscored(first + second) == first + "_" + second
  {
    UnderscoredOfLowerKey(first);
    UnderscoredCapitalised(second);
    UnderscoredConcat(first, second);
    assert first + ("_" + second) == first + "_" + second;
  }

  /** A lower-case word followed by a capitalised one: the column name joins
      them with an underscore and lowers the capital. */
  lemma SnakeCaseTwoWords(first: string, second: string)
    requires second != [] && IsUpper(second[0])
    requires NoCapitals(first) && NoCapitals(second[1..])
    ensures SnakeCase(first + second) == first + "_" + [LowerChar(second[0])] + second[1..]
  {
    UnderscoredTwoWords(first, second);
    var u := first + "_" + second;
    var expected := first + "_" + [LowerChar(second[0])] + second[1..];
    forall i | 0 <= i < |u|
      ensures Lower(u)[i] == expected[i]
    {
      if i < |first| {
        assert u[i] == first[i] && expected[i] == first[i];
      } else if i == |first| {
        assert u[i] == '_' && expected[i] == '_';
      } else if i == |first| + 1 {
        assert u[i] == second[0];
      } else {
        assert u[i] == second[i - |first| - 1] && expected[i] == second[i - |first| - 1];
      }
    }
    assert Lower(u) == expected;
  }

  /** The retry-count key the pool manager updates becomes `retry_count`. */
  lemma RetryCountColumn(key: string)
    requires key == "retryCount"
    ensures SnakeCase(key) == "retry_count"
  {
    var first, second := key[..5], key[5..];
    assert key == first + second;
    assert first == "retry" && second == "Count";
    assert second[0] == 'C' && second[1..] == "ount";
    assert NoCapitals(first) && NoCapitals(second[1..]);
    SnakeCaseTwoWords(first, second);
    assert [LowerChar(second[0])] == "c";
  }

  /** The error-message key becomes `error_message`. */
  lemma ErrorMessageColumn(key: string)
    requires key == "errorMessage"
    ensures SnakeCase(key) == "error_message"
  {
    var first, second := key[..5], key[5..];
    assert key == first + second;
    assert first == "error" && second == "Message";
    assert second[0] == 'M' && second[1..] == "essage";
    assert NoCapitals(first) && NoCapitals(second[1..]);
    SnakeCaseTwoWords(first, second);
    assert [LowerChar(second[0])] == "m";
  }

  /** The text of placeholder `n`. */
  function Placeholder(n: nat): string {
    "$" + NatToString(n)
  }

  /** The `SET` items for updates whose first placeholder is `$first`. */
  function Assignments(keys: seq<string>, first: nat): (r: seq<string>)
    ensures |r| == |keys|
    ensures forall i :: 0 <= i < |keys| ==> r[i] == SnakeCase(keys[i]) + " = " + Placeholder(first + i)
  {
    if keys == [] then [] else [SnakeCase(keys[0]) + " = " + Placeholder(first)] + Assignments(keys[1..], first + 1)
  }

  /** The placeholder of the `i`-th assignment reads back as `i + 1`, the
      position of its value in the value list. */
  lemma AssignmentPlaceholderLinesUp(keys: seq<string>, i: nat)
    requires i < |keys|
    ensures var item := Assignments(keys, 1)[i];
      var start := |SnakeCase(keys[i])| + 4;
      && start <= |item| && item[..start] == SnakeCase(keys[i]) + " = $"
      && (forall k :: start <= k < |item| ==> IsDigit(item[k]))
      && DigitsValue(item[start..]) == i + 1
  {
    var item := Assignments(keys, 1)[i];
    var head := SnakeCase(keys[i]) + " = $";
    var num := NatToString(i + 1);
    assert item == SnakeCase(keys[i]) + " = " + Placeholder(1 + i);
    assert item == head + num;
    assert item[..|head|] == head;
    assert item[|head|..] == num;
    NatToStringRoundTrip(i + 1);
  }

  /** Appending a key appends its assignment, numbered after the others. */
  lemma AssignmentsExtend(keys: seq<string>, i: nat)
    requires i < |keys|
    ensures Assignments(keys[..i + 1], 1) == Assignments(keys[..i], 1) + [SnakeCase(keys[i]) + " = " + Placeholder(1 + i)]
  {
    var longer, shorter := Assignments(keys[..i + 1], 1), Assignments(keys[..i], 1);
    var item := SnakeCase(keys[i]) + " = " + Placeholder(1 + i);
    forall k | 0 <= k < i
      ensures longer[k] == (shorter + [item])[k]
    {
      assert keys[..i + 1][k] == keys[k] == keys[..i][k];
      assert longer[k] == SnakeCase(keys[k]) + " = " + Placeholder(1 + k);
      assert shorter[k] == SnakeCase(keys[k]) + " = " + Placeholder(1 + k);
    }
    assert longer[i] == item;
    assert longer == shorter + [item];
  }

  function UpdateText(set_: string, whereParam: nat): string {
    "\n      UPDATE tasks \n      SET " + set_ + "\n      WHERE id = " + Placeholder(whereParam) + "\n      RETURNING *\n    "
  }

  /** The keys of an update object, in order. */
  function UpdateKeys(updates: seq<(string, SqlValue)>): seq<string> {
    seq(|updates|, i requires 0 <= i < |updates| => updates[i].0)
  }

  /** The loop of `update`: the `i`-th key becomes the assignment of `$i`
      (counting from 1) and its value the `i`-th bound value; `paramCount`
      ends one past the last placeholder used. */
  method BindUpdates(updates: seq<(string, SqlValue)>) returns (fields: seq<string>, values: seq<SqlValue>, paramCount: nat)
    ensures fields == Assignments(UpdateKeys(updates), 1)
    ensures |values| == |updates|
    ensures forall i :: 0 <= i < |updates| ==> values[i] == updates[i].1
    ensures paramCount == |updates| + 1
  {
    fields, values, paramCount := [], [], 1;
    ghost var keys := UpdateKeys(updates);
    for i := 0 to |updates|
      invariant paramCount == i + 1
      invariant fields == Assignments(keys[..i], 1)
      invariant |values| == i
      invariant forall k :: 0 <= k < i ==> values[k] == updates[k].1
    {
      var (key, value) := updates[i];
      fields := fields + [SnakeCase(key) + " = " + Placeholder(paramCount)];
      values := values + [value];
      paramCount := paramCount + 1;
      AssignmentsExtend(keys, i);
    }
    assert keys[..|updates|] == keys;
  }

  /** `update(taskId, updates)`, with the update object as its keys in
      order. The `i`-th key is bound to `$i` and its value, the id to the
      last placeholder, so there are exactly as many placeholders as values. */
  method Update(taskId: int, updates: seq<(string, SqlValue)>) returns (q: Query)
    ensures |q.values| == |updates| + 1
    ensures forall i :: 0 <= i < |updates| ==> q.values[i] == updates[i].1
    ensures q.values[|updates|] == IntVal(taskId)
    ensures q.text == UpdateText(Join(Assignments(UpdateKeys(updates), 1), ", "), |q.values|)
  {
    var fields, values, paramCount := BindUpdates(updates);
    values := values + [IntVal(taskId)];
    q := Query(UpdateText(Join(fields, ", "), paramCount), values);
  }

  /** The `limit` filter: a falsy value, or the text a truthy value renders
      as inside a template literal, spliced into the query as it is. */
  datatype Limit = NoLimit | LimitText(text: string)

  /** The filters of `findAll`; an empty status or priority is unset. */
  datatype Filters = Filters(status: string, priority: string, limit: Limit)

  /** The `WHERE` clause of a list of conditions, empty when there are none. */
  function WhereClause(conditions: seq<string>): string {
    if conditions == [] then "" else " WHERE " + Join(conditions, " AND ")
  }

  /** The `LIMIT` clause, present only for a truthy limit. */
  function LimitClause(limit: Limit): string {
    if limit.LimitText? then " LIMIT " + limit.text else ""
  }

  /** The filter part of `findAll`: a status condition on `$1` when the
      status is set, then a priority condition on the next placeholder when
      the priority is set, each with its value. */
  method FilterConditions(filters: Filters) returns (conditions: seq<string>, values: seq<SqlValue>)
    ensures values ==
      (if filters.status != "" then [TextVal(filters.status)] else [])
      + (if filters.priority != "" then [TextVal(filters.priority)] else [])
    ensures conditions ==
      (if filters.status != "" then ["status = " + Placeholder(1)] else [])
      + (if filters.priority != "" then ["priority = " + Placeholder(|values|)] else [])
  {
    conditions, values := [], [];
    var paramCount := 1;
    if filters.status != "" {
      conditions := conditions + ["status = " + Placeholder(paramCount)];
      values := values + [TextVal(filters.status)];
      paramCount := paramCount + 1;
    }
    if filters.priority != "" {
      conditions := conditions + ["priority = " + Placeholder(paramCount)];
      values := values + [TextVal(filters.priority)];
      paramCount := paramCount + 1;
    }
  }

  /** `findAll(filters)`: status before priority, numbered from `$1`, a
      `WHERE` only when some filter is set, newest first, and a `LIMIT` only
      when a limit is set. */
  method FindAll(filters: Filters) returns (q: Query)
    ensures q.values ==
      (if filters.status != "" then [TextVal(filters.status)] else [])
      + (if filters.priority != "" then [TextVal(filters.priority)] else [])
    ensures q.text == "SELECT * FROM tasks"
      + WhereClause(
          (if filters.status != "" then ["status = " + Placeholder(1)] else [])
          + (if filters.priority != "" then ["priority = " + Placeholder(|q.values|)] else []))
      + " ORDER BY created_at DESC"
      + LimitClause(filters.limit)
  {
    var conditions, values := FilterConditions(filters);
    var query := "SELECT * FROM tasks";
    if |conditions| > 0 {
      query := query + (" WHERE " + Join(conditions, " AND "));
    }
    query := query + " ORDER BY created_at DESC";
    if filters.limit.LimitText? {
      query := query + (" LIMIT " + filters.limit.text);
    }
    q := Query(query, values);
  }

  /** The fields `create` reads; an empty string or zero is falsy. */
  datatype NewTask = NewTask(
    title: string,
    description: string,
    priority: string,
    status: string,
    progress: int,
    retryCount: int,
    createdAt: int)

  const InsertText: string :=
    "\n    INSERT INTO tasks (\n      title, description, priority, status, progress, \n"
    + "      retry_count, created_at\n    ) VALUES ($1, $2, $3, $4, $5, $6, $7)\n    RETURNING *\n  "

  /** The values `create` binds to `$1`..`$7`: falsy fields take the
      defaults '', 'medium', 'pending', 0, 0 and the current time `now`. */
  function CreateValues(task: NewTask, now: int): (v: seq<SqlValue>)
    ensures |v| == 7
    ensures v[0] == TextVal(task.title)
    ensures v[1] == TextVal(task.description)
    ensures v[2] == TextVal(if task.priority == "" then "medium" else task.priority)
    ensures v[3] == TextVal(if task.status == "" then "pending" else task.status)
    ensures v[4] == IntVal(task.progress) && v[5] == IntVal(task.retryCount)
    ensures v[6] == Timestamp(if task.createdAt == 0 then now else task.createdAt)
  {
    [ TextVal(task.title),
      TextVal(task.description),
      TextVal(if task.priority != "" then task.priority else "medium"),
      TextVal(if task.status != "" then task.status else "pending"),
      IntVal(task.progress),
      IntVal(task.retryCount),
      Timestamp(if task.createdAt != 0 then task.createdAt else now) ]
  }

  /** `create`'s query: the insert text and its seven values. */
  function Create(task: NewTask, now: int): (q: Query)
    ensures q.text == InsertText && |q.values| == 7
    ensures q.values == CreateValues(task, now)
  {
    Query(InsertText, CreateValues(task, now))
  }
}
