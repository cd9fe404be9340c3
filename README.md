# cuddly-lamp core, modelled in Dafny

cuddly-lamp is a teaching collection about Python performance and refactoring.
This project models the parts of it that compute something:

- **The record/sequence processing engine.** `DataProcessor` is the "slow"
  version and `OptimizedDataProcessor` the "fast" one. Both cover duplicate
  detection, filter + square + sort, equality search on a record field,
  merging with de-duplication, Fibonacci, joining words and integer matrix
  multiplication. The fast version keeps a lazily built secondary index per
  search key and a memo table for Fibonacci.
- **The slow/fast example pairs** in `examples/`: de-duplication, common
  elements, sum of squares of positives, counting dictionaries, and a
  list-backed vs a set-backed membership structure.
- **The entity manager.** `BaseManager` is an id-counter plus a storage
  map. `UserManager` and `ProductManager` validate the fields with
  `src/utils.py` before they create or update a record.
- **The calculator.** Binary operations and list aggregates, each with
  type guards, a zero guard and an empty-list guard.

## Layout

- `wrappers.dfy`: `Option`, `Result`, the three Python exception kinds,
  and `Outcome`, which says whether a validator returns or raises.
- `sequences.dfy`, `strings.dfy`, `records.dfy`, `matrices.dfy`: reference
  definitions of the Python builtins the core uses. They cover order-keeping
  de-duplication, `list(set(...))` with its order left open, `sorted`,
  comprehensions, `sum`, counting, `list.remove`, `str.join`, `str.strip`,
  `str(n)`, the record scan and the matrix product.
- One module per source file:

  | module | source file |
  |---|---|
  | `DataProcessor` | `data_processor.py` |
  | `DataProcessorOptimized` | `data_processor_optimized.py` |
  | `EfficientExample` | `examples/efficient_example.py` |
  | `InefficientExample` | `examples/inefficient_example.py` |
  | `Utils` | `src/utils.py` |
  | `Base` | `src/base_manager.py` |
  | `Users` | `src/user_manager.py` |
  | `Products` | `src/product_manager.py` |
  | `Calculator` | `calculator.py` |

- `processor_agreement.dfy` and `example_agreement.dfy`: the comparisons
  the repository's tests and benchmark make between slow and fast versions.

Code that loops or changes state is written as Dafny methods with the same
loops. Each method is proved against a specification function, and the
properties are proved as lemmas about those functions. Classes whose
fields the source updates are Dafny classes:

- `OptimizedDataProcessor`;
- both data structures;
- the three managers.

Pure expressions are functions. Python's `None` is `Option.None`. A raised
exception is `Result.Err` or `Outcome.Fail`, with the source's message text.

Some edge cases in the code may surprise a reader; the model follows the
code:

- `compute_fibonacci(n)` returns `n` for every `n <= 1`, negative `n`
  included; it does not raise.
- The optimized `matrix_multiply` raises IndexError rather than ValueError
  on an empty matrix, because it evaluates `len(matrix1[0])` before any
  check.
- When a first row is empty, the two `matrix_multiply` versions disagree.
  The slow one raises "Matrices cannot be empty". The optimized one has no
  such check. It raises the dimension error for an empty first row of
  `matrix1`. For an empty first row of `matrix2` it either raises the
  dimension error or returns one empty row per row of `matrix1`
  (`[[1]]` × `[[]]` gives `[[]]`).
- `calculate_statistics([])` returns `{}` rather than raising. It is left
  out in any case; see below.

## Model

| member | source | states |
|---|---|---|
| DataProcessor.FindDuplicates | data_processor.py:17-24 | The result lists each value that occurs at least twice exactly once, in order of first occurrence, and nothing else. |
| DataProcessor.ScanLater | data_processor.py:21-23 | The inner loop appends `items[i]` exactly when a later position holds the same value and it is not listed yet. |
| DataProcessor.FindDuplicatesStep | data_processor.py:20-23 | One outer iteration extends the specification list exactly as the inner loop extends `duplicates`. |
| DataProcessor.DuplicatesAreRepeatedValues | data_processor.py:17-24 | The specification list has no repeats, and its values are exactly those that occur at least twice. |
| DataProcessor.InsertBeforeLarger | data_processor.py:61-65 | `sorted_data.insert(i, item)` before the first strictly larger element keeps the list ascending and adds exactly `item` (as a multiset). |
| DataProcessor.FilterPass | data_processor.py:49-52 | The first pass keeps exactly the items strictly above the threshold, in input order. |
| DataProcessor.SquarePass | data_processor.py:54-56 | The second pass squares every kept item, in order. |
| DataProcessor.InsertionSortPass | data_processor.py:58-67 | The hand-written insertion sort keeps `sorted_data` ascending and a permutation of the squares processed so far; at the end it is a sorted permutation of its input. |
| DataProcessor.FilterAndTransform | data_processor.py:46-69 | The result is ascending, is a permutation of the squares of the items above the threshold, and equals what `sorted` returns for them. |
| DataProcessor.SearchRecords | data_processor.py:71-78 | The result is exactly the records that hold `search_key` with value `search_value`, in input order; nothing is raised. |
| DataProcessor.MergeDatasets | data_processor.py:101-116 | The result is the distinct elements of `dataset1 + dataset2` in first-occurrence order: no repeats, and its element set is the union. |
| DataProcessor.Fib | data_processor.py:118-122 | `compute_fibonacci(n)` is `n` for every `n <= 1` (negatives included) and never negative for `n >= 0`. |
| DataProcessor.FibKnownValues | test_performance.py:202-212 | fib(0..10) are 0, 1, 1, 2, 3, 5, 8, 13, 21, 34, 55. |
| DataProcessor.StringOperations | data_processor.py:124-131 | The result is `strip()` of every word followed by one space; the empty list gives `""`. |
| DataProcessor.MatrixMultiply | data_processor.py:133-157 | An empty matrix or first row raises "Matrices cannot be empty". Otherwise a column/row mismatch raises "Matrix dimensions incompatible", a row too short for the loops raises IndexError, and any other input gives the standard product. |
| DataProcessorOptimized.FindDuplicates | data_processor_optimized.py:19-30 | The result holds each value that occurs at least twice exactly once, and nothing else; the order is left open. |
| DataProcessorOptimized.FilterAndTransform | data_processor_optimized.py:51-57 | The result is ascending and a permutation of the squares of the items strictly above the threshold; it is `[]` exactly when no item passes. |
| DataProcessorOptimized.BuildIndex | data_processor_optimized.py:63-69 | In the built index, value `v` maps to exactly the records holding the key with value `v`, in input order. Records lacking the key are left out, and no bucket is empty. |
| DataProcessorOptimized.BuildIndexStep | data_processor_optimized.py:65-69 | One iteration of the build loop (create an empty bucket, then append) extends the index as the specification does. |
| DataProcessorOptimized.FillIndex | data_processor_optimized.py:63-69 | The build loop produces the index `BuildIndex` specifies. |
| DataProcessorOptimized.OptimizedDataProcessor.constructor | data_processor_optimized.py:14-17 | A fresh processor has no index and an empty memo table. |
| DataProcessorOptimized.OptimizedDataProcessor.SearchRecords | data_processor_optimized.py:59-72 | The index for a key is built only when the key is absent, from the records of that call, and is never rebuilt. Indexes for other keys and the memo table are untouched. The result is the matching records of the list the index was built from, or `[]`. |
| DataProcessorOptimized.StaleIndexExample | data_processor_optimized.py:62-72 | A second search on an indexed key is answered from the first call's records: it returns `[]` although the new list holds a match. |
| DataProcessorOptimized.OptimizedDataProcessor.ComputeFibonacci | data_processor_optimized.py:118-123 | The memoized result always equals the plain recursion. Afterwards `n` is memoized, earlier entries are kept, and the index is unchanged. |
| DataProcessorOptimized.OptimizedDataProcessor.ClearCache | data_processor_optimized.py:151-155 | Every index and every memoized value is forgotten. |
| DataProcessorOptimized.MergeDatasets | data_processor_optimized.py:96-106 | For hashable items the result has no repeats, and its element set is `set(dataset1) ∪ set(dataset2)`. |
| DataProcessorOptimized.StringOperations | data_processor_optimized.py:125-128 | `" ".join(words)`: `""` for no words, otherwise the total word length plus one separator per gap. |
| DataProcessorOptimized.MatrixMultiply | data_processor_optimized.py:130-149 | An empty matrix raises IndexError and a column/row mismatch raises "Matrix dimensions incompatible". The result is Ok exactly for multipliable inputs, and is then rows1 × cols2 with entry [i][j] = Σ_k m1[i][k]·m2[k][j]. |
| ProcessorAgreement.FindDuplicatesAgree | test_performance.py:13-47 | Both `find_duplicates` give the same set of values, the values occurring at least twice, and the same number of them. |
| ProcessorAgreement.FilterAndTransformAgree | test_performance.py:97-134 | Both `filter_and_transform` return the same list; it is `[]` exactly when no item exceeds the threshold. |
| ProcessorAgreement.MergeDatasetsAgree | test_performance.py:140-177 | Both merges give the same set, the union of the inputs, with the same length. |
| ProcessorAgreement.FibonacciAgree | test_performance.py:183-200 | The memoized Fibonacci equals the plain recursion, on the first call and on a repeated call. |
| ProcessorAgreement.SpaceTerminatedIsJoinPlusSpace | data_processor.py:127-129 | For a non-empty list, the concatenation loop builds `" ".join(words) + " "`. |
| ProcessorAgreement.JoinEnds | data_processor_optimized.py:128 | A join of words with clean ends starts with the first word's first character and ends with the last word's last character. |
| ProcessorAgreement.StripTrailingSpace | data_processor.py:131 | `strip()` of a string with clean ends plus one trailing space gives the string back. |
| ProcessorAgreement.StringOperationsPlainWords | data_processor.py:124-131 | For words with no leading or trailing whitespace, the slow loop plus `strip()` equals `" ".join(words)`. |
| ProcessorAgreement.StringOperationsDiffer | data_processor.py:124-131 | With an empty word the versions differ: `["", "a"]` gives `"a"` slowly and `" a"` fast. |
| ProcessorAgreement.StringOperationsAgree | test_performance.py:218-252 | For plain words both versions give the same string, and `""` for an empty list. |
| ProcessorAgreement.MatrixMultiplyAgree | test_performance.py:258-296 | For non-empty matrices with non-empty first rows both versions return the same result. On an empty matrix the slow version raises ValueError and the fast one IndexError. On an empty first row the slow version raises "Matrices cannot be empty". The fast one raises the dimension error, or returns one empty row per row of `matrix1` when only `matrix2`'s first row is empty and the dimensions match. |
| ProcessorAgreement.FastEmptyColumns | data_processor_optimized.py:132-147 | When `matrix2` has no columns and the dimensions match, the comprehension returns one empty row per row of `matrix1`, whatever the other rows hold. |
| ProcessorAgreement.EmptyColumnsDiffer | data_processor_optimized.py:132-147 | `[[1]]` × `[[]]` gives `[[]]` in the optimized version, where data_processor.py:135-136 raises. |
| ProcessorAgreement.MatrixMultiplyExamples | test_performance.py:258-296 | The tested products `[[19, 22], [43, 50]]` and the identity, and a ValueError for 1×3 times 2×2. |
| Matrices.ProductIdentity | test_performance.py:271-282 | A rectangular matrix times the identity of its width is itself. |
| Records.MatchingMultiplicity | data_processor.py:74-78 | The scan keeps every matching record as often as it occurs and drops every other record. |
| Sequences.DedupMembers | examples/inefficient_example.py:25-30 | A value is in the order-keeping de-duplication exactly when it is in the input. |
| Sequences.DedupDistinct | examples/inefficient_example.py:25-30 | The order-keeping de-duplication has no repeats and is no longer than its input. |
| Sequences.DedupOfDistinct | examples/inefficient_example.py:25-30 | De-duplicating a list without repeats gives it back. |
| Sequences.DistinctCard | examples/efficient_example.py:23 | A list without repeats is as long as its set of elements. |
| Sequences.ListOfSet | examples/efficient_example.py:23 | `list(s)` of a set holds each element once and nothing else, so its length is the set's size. |
| Sequences.OccurrencesCounts | examples/inefficient_example.py:84-89 | The counting dictionary has exactly the input's values as keys, each mapped to its multiplicity. |
| Sequences.RemoveFirstDistinct | examples/inefficient_example.py:111-112 | `list.remove` on a list without repeats leaves no repeats and removes exactly that value. |
| Sequences.SortedOf | data_processor_optimized.py:57 | `sorted` returns an ascending permutation of its input. |
| Sequences.SortedUnique | data_processor.py:58-69 | Two ascending permutations of one multiset are equal, so the insertion sort returns what `sorted` returns. |
| Sequences.FilterSquareIsSquaresOfAbove | examples/inefficient_example.py:57-70 | The one-pass comprehension equals the filter pass followed by the square pass. |
| Strings.StripClean | data_processor.py:131 | A string that neither starts nor ends with whitespace is its own `strip()`. |
| Strings.NatToStringRoundTrip | src/utils.py:26 | The decimal rendering of `min_length` in the message reads back as the same number. |
| EfficientExample.EfficientListSearch | examples/efficient_example.py:18-23 | Each distinct input element appears exactly once. |
| EfficientExample.EfficientNestedLoops | examples/efficient_example.py:26-31 | Exactly the elements present in both lists, each once. |
| EfficientExample.SumOfPositives | examples/efficient_example.py:67 | A sum of positive numbers is never negative, and is zero only for the empty list. |
| EfficientExample.PositiveSquareSum | examples/efficient_example.py:62-67 | The sum of squares of the positive items is never negative, and is zero exactly when no item is positive. |
| EfficientExample.EfficientDataProcessing | examples/efficient_example.py:62-67 | The sum of x·x over the x > 0 in `data` is non-negative, and zero exactly when no item is positive. |
| EfficientExample.EfficientDictionaryLookup | examples/efficient_example.py:70-78 | The `get`-based loop maps each distinct element to its number of occurrences and equals the `Counter` result. |
| EfficientExample.EfficientDictionaryLookupCounter | examples/efficient_example.py:81-86 | `dict(Counter(data))` has exactly the input's values as keys, each mapped to its multiplicity. |
| EfficientExample.OccurrencesIsCounter | examples/efficient_example.py:70-86 | The counting loop and `Counter` build the same dictionary. |
| EfficientExample.EfficientDataStructure.constructor | examples/efficient_example.py:93-94 | A fresh structure is empty. |
| EfficientExample.EfficientDataStructure.AddItem | examples/efficient_example.py:96-98 | Afterwards `has_item(x)` holds; adding a present item changes nothing, and other items are unaffected. |
| EfficientExample.EfficientDataStructure.RemoveItem | examples/efficient_example.py:104-106 | Afterwards `has_item(x)` is false, even when `x` was absent; other items are unaffected. |
| EfficientExample.EfficientListComprehension | examples/efficient_example.py:120-125 | The squares of the positive items, in input order; every entry is positive. |
| EfficientExample.EfficientMembershipTesting | examples/efficient_example.py:136-141 | Only elements of `check_items` that occur in `items` are kept, never more than were given. |
| EfficientExample.MembershipMultiplicity | examples/efficient_example.py:136-141 | A value found in `items` is kept as often as it occurs in `check_items`; any other value is dropped. |
| InefficientExample.InefficientListSearch | examples/inefficient_example.py:20-30 | The distinct elements in first-occurrence order: no repeats, and the same element set as the input. |
| InefficientExample.InefficientNestedLoops | examples/inefficient_example.py:33-43 | The double loop emits, for each `item1` in order, one copy per equal element of `list2`. |
| InefficientExample.AppendMatches | examples/inefficient_example.py:40-42 | The inner loop appends one copy of `item1` per equal element of `list2`. |
| InefficientExample.NestedMatchesMembers | examples/inefficient_example.py:33-43 | A value is emitted exactly when it occurs in both lists. |
| InefficientExample.NestedMatchesMultiplicity | examples/inefficient_example.py:33-43 | A value is emitted (count in `list1`) × (count in `list2`) times. |
| InefficientExample.InefficientDataProcessing | examples/inefficient_example.py:57-77 | The three passes return the sum of the squares of the positive items. |
| InefficientExample.KeepPositive | examples/inefficient_example.py:62-65 | The filter pass keeps exactly the items > 0, in order. |
| InefficientExample.SquareEach | examples/inefficient_example.py:68-70 | The square pass squares each kept item, in order. |
| InefficientExample.AddUp | examples/inefficient_example.py:73-75 | The sum pass adds up the squares. |
| InefficientExample.InefficientDictionaryLookup | examples/inefficient_example.py:80-90 | Each key's count equals its number of occurrences in the input, and every input element is a key. |
| InefficientExample.InefficientDataStructure.constructor | examples/inefficient_example.py:97-98 | A fresh structure is an empty list, with no repeats. |
| InefficientExample.InefficientDataStructure.AddItem | examples/inefficient_example.py:100-103 | The item is appended only when absent, so the list never repeats a value; afterwards `has_item(x)` holds. |
| InefficientExample.InefficientDataStructure.RemoveItem | examples/inefficient_example.py:109-112 | A present item is removed, so `has_item(x)` is afterwards false; an absent item leaves the list unchanged. |
| ExampleAgreement.ListSearchAgree | benchmark.py:67-70 | Both de-duplications give the same set and the same length. |
| ExampleAgreement.NestedMatchesElems | benchmark.py:76-79 | The set of values the double loop emits is the set intersection. |
| ExampleAgreement.NestedLoopsAgree | benchmark.py:76-79 | Both common-element functions give the same set, the set intersection. |
| ExampleAgreement.DataProcessingAgree | benchmark.py:84-87 | The three-pass and the one-pass sums are equal and non-negative. |
| ExampleAgreement.DictionaryLookupAgree | benchmark.py:92-95 | The test-then-increment loop, the `get` loop and `Counter` give the same dictionary. |
| ExampleAgreement.FillInefficient | benchmark.py:100-103 | Adding items one by one to the list structure leaves each once, in first-insertion order. |
| ExampleAgreement.FillEfficient | benchmark.py:108-111 | Adding items one by one to the set structure leaves the set of them. |
| ExampleAgreement.DataStructureAgree | benchmark.py:97-114 | After the same additions both structures hold the same items and answer every `has_item` alike. |
| Utils.ValidateMinLength | src/utils.py:14-26 | Raises exactly when the value is None, empty (even for minimum 0) or shorter than the minimum, with "<field> must be at least <n> characters long". |
| Utils.MinLengthMonotone | src/utils.py:25 | A value accepted for a minimum is accepted for every smaller one, and `""` is refused for every minimum. |
| Utils.ValidatePositiveNumber | src/utils.py:29-40 | Raises "<field> must be greater than 0" exactly when the value is None or not greater than 0. |
| Utils.ValidateEmail | src/utils.py:43-53 | Raises "Invalid email address" exactly when the address is None or has no '@'. |
| Utils.FirstFailure | src/user_manager.py:29-31 | Validators run in a row pass exactly when all pass; otherwise the first failure is the one raised. |
| Utils.FirstFailureOfThree | src/product_manager.py:29-31 | For three validators, the first that fails decides the outcome. |
| Utils.UsernameMessage | tests/test_user_manager.py:27-31 | "ab" is refused as a username with "Username must be at least 3 characters long". |
| Utils.PasswordMessage | tests/test_user_manager.py:39-43 | "short" is refused as a password with "Password must be at least 8 characters long". |
| Utils.DescriptionMessage | tests/test_product_manager.py:34-38 | Every description shorter than 10 characters (the test's "Short" among them) is refused with "Description must be at least 10 characters long". |
| Utils.PriceMessage | tests/test_utils.py:55-71 | Prices -5, 0 and None are refused; -5 with "Price must be greater than 0". |
| Base.NewRecord | src/base_manager.py:31-37 | The new record holds `id`, every data field, `created_at` and `updated_at`. A data `id` wins over the generated one; the timestamps always win. |
| Base.Overlay | src/base_manager.py:59-61 | Keys with a non-None value are written; every other field keeps its value. |
| Base.OverlayNothing | src/base_manager.py:59-61 | An update dict of only None values changes nothing. |
| Base.OverlayIdempotent | src/base_manager.py:59-61 | Applying the same update dict twice is the same as applying it once. |
| Base.Updated | src/base_manager.py:58-63 | The returned record has the non-None updates, the other fields as before (`created_at` included), and a fresh `updated_at`. |
| Base.BaseManager.constructor | src/base_manager.py:8-11 | A fresh manager has empty storage and counter 0. |
| Base.BaseManager.GenerateId | src/base_manager.py:13-20 | The counter is incremented and its new value returned; no stored record uses it yet. |
| Base.BaseManager.CreateRecord | src/base_manager.py:22-39 | Exactly one new entry is stored, under the fresh id; no other record changes. |
| Base.BaseManager.UpdateRecord | src/base_manager.py:41-63 | An unknown id raises "<entity> not found" and changes nothing. Otherwise the update loop overwrites only non-None fields, resets `updated_at`, and stores and returns the record. The set of ids and the counter never change. |
| Base.BaseManager.GetRecord | src/base_manager.py:65-80 | A known id returns the stored record; an unknown id raises "<entity> not found". |
| Base.GenerateIdScenario | tests/test_base_manager.py:24-29 | Successive ids are 1, then 2. |
| Base.UpdateScenario | tests/test_base_manager.py:31-57 | A record is created with id 1 and read back. An update with `value: None` renames it, keeps `value` and `created_at`, and sets `updated_at` to the new time. |
| Base.NotFoundScenario | tests/test_base_manager.py:59-87 | Unknown ids give "Record not found", "CustomEntity not found" and "Widget not found". |
| Users.CreateUserChecks | src/user_manager.py:29-31 | Passes exactly for username length ≥ 3, an email with '@' and password length ≥ 8; a username failure is raised first. |
| Users.UpdateUserChecks | src/user_manager.py:58-63 | Only the non-None arguments are validated, with the creation rules. |
| Users.CreateChecksAreUpdateChecks | src/user_manager.py:29-63 | With all three fields given, creation and update accept the same values. |
| Users.UserManager.constructor | src/user_manager.py:9-12 | A fresh manager has empty storage and counter 0. |
| Users.UserManager.CreateUser | src/user_manager.py:14-40 | A failed validation raises its ValueError and leaves storage and counter unchanged. Otherwise the user is stored under a fresh id with the given fields. |
| Users.UserManager.UpdateUser | src/user_manager.py:42-72 | Validation runs before the lookup, so an invalid field raises even for an unknown id. With valid fields an unknown id raises "User not found"; otherwise only the given fields change. |
| Users.OmittedFieldKept | src/user_manager.py:66-70 | A field passed as None keeps its stored value. |
| Users.GivenUsernameStored | src/user_manager.py:66-70 | A username passed to `update_user` is the stored username afterwards. |
| Users.CreateUserScenario | tests/test_user_manager.py:19-25 | A valid user is stored with id 1, the given username and email, and the timestamps. |
| Users.ShortUsernameRefused | tests/test_user_manager.py:27-31 | "ab" is refused with the username message. |
| Users.InvalidEmailRefused | tests/test_user_manager.py:33-37 | "invalid-email" is refused with "Invalid email address". |
| Users.ShortPasswordRefused | tests/test_user_manager.py:39-43 | "short" is refused with the password message. |
| Users.RenameUserScenario | tests/test_user_manager.py:45-49 | Renaming a stored user stores the new name. |
| Users.UnknownUserScenario | tests/test_user_manager.py:51-55 | Renaming id 999 raises "User not found". |
| Users.InvalidRenameScenario | tests/test_user_manager.py:57-62 | Renaming to "ab" raises the username message. |
| Products.CreateProductChecks | src/product_manager.py:29-31 | Passes exactly for name length ≥ 3, description length ≥ 10 and price > 0; a name failure is raised first. |
| Products.UpdateProductChecks | src/product_manager.py:58-63 | Only the non-None arguments are validated; a lone price is checked exactly as on creation. |
| Products.ProductManager.constructor | src/product_manager.py:9-12 | A fresh manager has empty storage and counter 0. |
| Products.ProductManager.CreateProduct | src/product_manager.py:14-40 | A failed validation creates no record and consumes no id. Otherwise the product is stored under a fresh id with name, description and price. |
| Products.ProductManager.UpdateProduct | src/product_manager.py:42-72 | Validation runs first, and a failure leaves the store unchanged. With valid fields an unknown id raises "Product not found"; otherwise only the given fields change. |
| Products.OmittedFieldKept | src/product_manager.py:66-70 | A field passed as None keeps its stored value. |
| Products.GivenNameStored | src/product_manager.py:66-70 | A name passed to `update_product` is the stored name afterwards. |
| Products.CreateProductScenario | tests/test_product_manager.py:19-26 | A valid product is stored with id 1 and the given fields. |
| Products.ShortNameRefused | tests/test_product_manager.py:28-32 | "Wi" is refused with the product-name message. |
| Products.ShortDescriptionRefused | tests/test_product_manager.py:34-38 | "Short" is refused with the description message. |
| Products.NegativePriceRefused | tests/test_product_manager.py:40-44 | A price of -5 is refused with "Price must be greater than 0". |
| Products.ProductNameMessage | tests/test_product_manager.py:28-32 | "Wi" is refused with "Product name must be at least 3 characters long". |
| Products.RenameProductScenario | tests/test_product_manager.py:46-50 | Renaming a stored product stores the new name. |
| Products.UnknownProductScenario | tests/test_product_manager.py:52-56 | Renaming id 999 raises "Product not found". |
| Products.InvalidPriceScenario | tests/test_product_manager.py:58-63 | A new price of -10 is refused with the price message. |
| Calculator.OperandError | calculator.py:6-9 | The first argument is type-checked before the second. |
| Calculator.AddNumbers | calculator.py:4-12 | Raises the first failing type check; otherwise returns a + b. |
| Calculator.SubtractNumbers | calculator.py:15-23 | Raises the first failing type check; otherwise returns a − b. |
| Calculator.MultiplyNumbers | calculator.py:26-34 | Raises the first failing type check; otherwise returns a · b. |
| Calculator.DivideNumbers | calculator.py:37-47 | Ok exactly for two numbers with b ≠ 0. The zero check ("Cannot divide by zero") runs only after both type checks, and the quotient times b is a. |
| Calculator.SubtractUndoesAdd | calculator.py:4-23 | (x + y) − y = x. |
| Calculator.OperandOrder | calculator.py:4-34 | Addition and multiplication of two numbers commute, but the error raised depends on which operand is not a number. |
| Calculator.DivideUndoesMultiply | calculator.py:26-47 | (x · y) / y = x for y ≠ 0. |
| Calculator.BinaryExamples | test_calculator.py:13-70 | The integer cases and error messages the calculator tests check. |
| Calculator.CalculateSum | calculator.py:69-84 | The empty list raises "List cannot be empty" before any type check; then any non-number raises "All elements must be numbers"; otherwise the loop total equals the sum of the elements. |
| Calculator.CalculateAverage | calculator.py:50-66 | The same guards, in the same order; otherwise the total divided by the length. |
| Calculator.SumBounds | calculator.py:60-62 | The accumulated total of n values lies between n·min and n·max. |
| Calculator.AverageWithinBounds | calculator.py:50-66 | The average lies between any lower and upper bound of the elements. |
| Calculator.AggregateExamples | test_calculator.py:73-108 | The tested lists sum to 15, 30 and 5, and `[1, 2, "3"]` is not all numbers. |
| Calculator.AggregateScenario | test_calculator.py:73-108 | Through the methods: sum 15, average 3.0 and 15.0, the empty-list error and the mixed-list error. |

## Left out

- `calculate_statistics` in both processors: its mean, variance and square root are floating point. Floats are not modelled.
- `process_file_data` and `_expensive_computation`: file I/O and `json.loads`.
- The unhashable fallback of the optimized `merge_datasets` (data_processor_optimized.py:107-116): it depends on Python's `str()` of arbitrary objects and on catching TypeError. Only the hashable path is modelled.
- Hashability: several members build a Python `set` from list elements:
  - the optimized `find_duplicates` (data_processor_optimized.py:20-29);
  - `efficient_list_search`, `efficient_nested_loops`, `EfficientDataStructure` and `efficient_membership_testing` (examples/efficient_example.py:23, :31, :94-106, :140).

  Python raises TypeError on unhashable elements such as lists or dicts; the model does not. The element type `T` of these members stands for hashable Python values. The same holds for the agreement members built on them (`FindDuplicatesAgree`, `ListSearchAgree`, `NestedLoopsAgree`, `DataStructureAgree`). Their claims hold only for hashable elements: on `[[1], [1]]` the slow `find_duplicates` returns `[[1]]` where the optimized one raises.
- `functools.lru_cache` itself (its key includes `self`, and it has `cache_clear`). The memo table is an explicit map field of the processor. It bounds nothing, as `maxsize=None` does not.
- The `data` and `cache` attributes of both processors. No modelled method reads them, and the model of `clear_cache` resets every field it has.
- The unused `target` parameter of both list-search functions.
- String conversion of arbitrary objects: the list-concatenation and string-building examples, and `efficient_dict_iteration`.
- The file-reading examples, `efficient_generator_for_large_data` (a lazy generator), and the global and local counter examples.
- `benchmark.py`'s timing, printing and speedup formatting. Its "Results match" comparisons are modelled, along with the data-structure loops.
- Every `print` in the calculator and in the managers. This includes the KeyError that the `print` in `update_user` or `update_product` would raise for a stored record lacking that field, which records created through the managers never do.
- `get_timestamp` reads the wall clock. Timestamps are strings the caller passes in, one per `get_timestamp()` call.
- Python's cross-type equality and the bool-is-int quirk of `isinstance`.
  - Calculator numbers are integers, with real quotients.
  - Record fields in the processors are integers, strings, booleans or None.
  - Manager fields are text, integers or reals.
  - List elements are integers in `filter_and_transform` (both versions), in both `*_data_processing` functions and in `efficient_list_comprehension`. Matrix entries are integers too. Python accepts any number there.
- Calculator.CalculateSum: sums integers only, so the float rounding of `test_calculator.py` (`approx`) is not modelled.
- Utils.ValidateMinLength: takes a string or None. Python also accepts other values through `len(str(value))`, and other falsy values such as 0.
- Aliasing: the record `_create_record` returns is the dict it stores, and `_update_record` mutates that dict in place. The model stores and returns the same value, so aliasing cannot be observed.
- Aliasing in the optimized `search_records`: the index holds the caller's record dicts, and the method returns the bucket list itself. A caller that appends to a result, or mutates a record after indexing, changes what later searches return. The model treats the index, its buckets and the records as values, so `OptimizedDataProcessor.SearchRecords` always answers from the records as they were when the index was built.
- The order in which `_update_record` visits the update dict: the resulting record does not depend on it.
- Inheritance: `UserManager` and `ProductManager` hold their `BaseManager` rather than extend it. `self.users` and `self.products` are aliases of its storage.
- DataProcessorOptimized.FindDuplicates: the order of `list(set(...))` is left open, as in the optimized `merge_datasets` and the `efficient_*` functions. Only the distinctness and the element set are stated.
- DataProcessorOptimized.StringOperations: the contract states only the length and the empty case. The content is tied to the slow version by `StringOperationsPlainWords`.
- Some inner loops are separate methods:
  - the inner loop of the slow `find_duplicates` is `ScanLater`;
  - the inner loop of `inefficient_nested_loops` is `AppendMatches`;
  - the build loop of `search_records` is `FillIndex`;
  - the passes of `filter_and_transform` and `inefficient_data_processing` are one method each.

  Each keeps the source's loop unchanged.
