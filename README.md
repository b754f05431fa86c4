# booksland-backend-go, modelled in Dafny

This project models the core of booksland-backend-go, a Go REST backend for a bookshop catalogue. The catalogue holds books, courses, stocks, cart items, media and feeds, and the backend keeps them in MongoDB collections. The model covers:

- the documents and the `New*` constructors that fill in their defaults (`models.dfy`);
- the validation messages and custom validators (`validate.dfy`), the error envelope (`errors.dfy`) and the configuration with its URL helpers (`config.dfy`);
- image uploads into the assets directory (`upload.dfy`);
- each entity service with its CRUD operations and its paginated `Find` aggregation pipeline. Shared pieces cover the collection (`store.dfy`), the list query (`query.dfy`), the `$match`/`$sort`/`$facet` stages (`pipeline.dfy`) and the `$lookup` joins (`joins.dfy`);
- the two JWT kinds, login, the single refresh-token slot per user, refresh validation and logout (`jwt.dfy`, `auth_service.dfy`);
- the `EnsureAuth` middleware (`authentication.dfy`);
- route registration and mux dispatch (`routes.dfy`).

A collection is a sequence of documents in natural order with unique, non-nil ids. A Go pointer that a constructor fills in is a `Ref<T>` object. Services that write take the collection object. Queries are functions of the documents they read, and each method that loops is proved against such a function.

Where the documented design of the system and its code disagree, the model follows the code:

- Media deletion is described as removing the stored file and then the record. In the code, MediaService.DeleteById, like the book, stock and feed deletes, goes through a package-level course service that is never set. The model therefore leaves these deletes out; see below.
- Every route is described as gated by the token middleware. In the code, the `/auth` routes and the media list, read and delete routes are registered bare; `Routes.MediaOpen` and `Routes.AuthOpen` state this.
- ChangePassword does not do what its name says; see "Findings".

## Model

| member | source | states |
|---|---|---|
| Errors.BadRequest | pkg/utils/error.go:11-17 | the error carries the message, code 400 and category "bad request" |
| Errors.NotFound | pkg/utils/error.go:19-25 | the error carries the message, code 404 and category "not found" |
| Errors.InternalErr | pkg/utils/error.go:27-33 | the error carries the message, code 500 and category "internal server error" |
| ObjectIds.FromHex | pkg/services/course.service.go:155 | ObjectIDFromHex: a string whose byte length is not 24 gives the invalid-hex error; a 24-byte string with a non-hex character gives hex's invalid-byte error naming the first such byte |
| ObjectIds.FromHexAccepts | pkg/services/course.service.go:155-158 | an id string is accepted exactly when it is 24 hexadecimal characters |
| ObjectIds.Hex | pkg/services/auth.service.go:42 | ObjectID.Hex() is 24 lower-case hex digits |
| ObjectIds.HexRoundTrip | pkg/services/auth.service.go:42 | every id written with Hex() parses back to itself |
| ObjectIds.DecodeHexOf | pkg/services/auth.service.go:42 | decoding the hex of any byte string gives those bytes back |
| ObjectIds.HexOfDecode | pkg/services/course.service.go:155 | writing out decoded hex gives the input in lower case |
| ObjectIds.FromHexCanonical | pkg/services/course.service.go:155 | an accepted id string is the lower-case-insensitive spelling of its id: Hex(FromHex(s)) is s in lower case |
| ObjectIds.FirstNonHex | pkg/services/course.service.go:155 | the position found is the first character that is not a hex digit, and there is none exactly when the string is hex |
| Text.ReplaceFirst | pkg/middlewares/authentication.go:49 | strings.Replace(s, pat, rep, 1): without an occurrence the string is unchanged, otherwise exactly the first occurrence is replaced |
| Text.IndexOf | pkg/middlewares/authentication.go:49 | strings.Index: the position returned is an occurrence with none before it; no position means no occurrence anywhere |
| Text.ReplaceChar | pkg/utils/upload.go:55 | strings.ReplaceAll of one character: same length, and exactly the `from` characters become `to` |
| Text.Before | pkg/utils/upload.go:55 | the prefix before the first separator contains no separator and is a prefix of the input |
| Text.AfterLast | pkg/utils/upload.go:55 | the suffix after the last separator contains none, and when shorter than the input is preceded by the separator |
| Text.BeforeLast | pkg/utils/upload.go:55 | some prefix exactly when the separator occurs; that prefix ends just before an occurrence |
| Text.IntDecRoundTrip | pkg/services/auth.service.go:95 | a decimal integer as written reads back as itself |
| Text.ByteLength | pkg/models/validate.go:112 | Go's len(s) counts UTF-8 bytes: never less than the number of characters, and equal to it exactly when every character is ASCII |
| Config.GetString | pkg/utils/config.go:34-53 | an unset variable gives the registered default |
| Config.GetInt | pkg/utils/config.go:61-69 | viper.GetInt: an unset or empty variable gives the default; a set one is converted by cast.ToInt and lies in the 64-bit range |
| Config.ToInt | pkg/utils/config.go:61-69 | cast.ToInt on a string: strconv.ParseInt(trimZeroDecimal(s), 0, 0), 0 when that fails; always a 64-bit Go int |
| Config.ToIntDecimal | pkg/utils/config.go:61-69 | an int64 written in decimal converts back to itself |
| Config.TrimZeroDecimalCuts | pkg/utils/config.go:61-69 | a '.' followed by only zeros is cut off before parsing |
| Config.ToIntPrefixes | pkg/utils/config.go:61-69 | base 0 reads prefixes: "010" is 8, "08" fails and gives 0, "0x1e" is 30 |
| Config.ToIntUnderscores | pkg/utils/config.go:61-69 | underscores between digits are allowed with base 0: "1_000" is 1000 |
| Config.ToIntZeroDecimal | pkg/utils/config.go:61-69 | "30.0" is 30 and "-15" is -15 |
| Config.NewConfigurations | pkg/utils/config.go:32-88 | an empty environment gives the defaults (JwtExpiration 30, RefreshJwtExpiration 43200, AssetsUrl "http://localhost:8000"); a non-empty PORT makes ServerAddress "0.0.0.0:" + PORT; every other field is read under its own key with its own default, integers through cast.ToInt |
| Config.SplitScheme | pkg/utils/config.go:91-92 | url.Parse's scheme split: a non-empty scheme is the text before the first ':' and the rest follows it |
| Config.IsUrl | pkg/utils/config.go:90-93 | url.Parse of Go 1.21 accepts the string with a non-empty scheme and host; such a string then begins with a non-empty scheme, its first ':' and "//" |
| Config.HttpUrl | pkg/utils/config.go:90-93 | "http://" + authority + path (no '#', '?' or control character) is a URL exactly when the authority is valid with a non-empty host (a bracketed IPv6 literal included) and every '%' of the path starts a hex escape |
| Config.Ipv6Url | pkg/utils/config.go:90-93 | "http://[::1]/a.png" is a URL |
| Config.BadEscapeUrl | pkg/utils/config.go:90-93 | "http://cdn/x%zz.png" is not a URL: url.Parse refuses the escape |
| Config.AppendUrl | pkg/utils/config.go:95-100 | a URL is returned unchanged, anything else is prefixed with AssetsUrl |
| Config.AppendUrlIdempotent | pkg/utils/config.go:95-100 | when AssetsUrl + input is a URL, applying AppendUrl twice is applying it once, and the result is a URL |
| Config.AssetsUrlMakesUrls | pkg/utils/config.go:95-100 | for an AssetsUrl "http://" + authority with a valid authority free of '/', '#', '?' and control characters, every absolute path free of control characters and of malformed escapes becomes a URL once prefixed, so a second AppendUrl leaves it alone |
| Config.DefaultAssetsUrlMakesUrls | pkg/utils/config.go:53 | with the default AssetsUrl every absolute path free of control characters and of malformed escapes becomes a URL, and a second AppendUrl leaves it alone |
| Config.AssetsUrlRejects | pkg/utils/config.go:95-100 | the converse for an AssetsUrl "http://" + authority and a path without '#' or '?': a control character or a malformed escape makes the prefixed path no URL, so a second AppendUrl prefixes it again |
| Config.DefaultAssetsUrlRejects | pkg/utils/config.go:53 | the same for the default AssetsUrl |
| Config.PercentPathPrefixedTwice | pkg/utils/config.go:95-100 | "/assets/50%off-1.png" is prefixed twice by two AppendUrl calls |
| Config.DefaultAuthority | pkg/utils/config.go:53 | "localhost:8000" is a valid authority with a non-empty host |
| Validate.MessageNamesField | pkg/models/validate.go:18-43 | Error() is non-empty exactly for the six known tags (required, min, max, email, numeric, passwd), and then names the field |
| Validate.Errors | pkg/models/validate.go:49-55 | one message per error, in the same order |
| Validate.Struct | pkg/models/validate.go:74-87 | nil when no field fails, otherwise every failing field's error, in order |
| Validate.Passwd | pkg/models/validate.go:103-128 | true exactly when the byte length is at least 8 and some rune is upper-case, some lower-case, some a number and some punctuation or a symbol, by the Unicode 15.0.0 general categories (Lu, Ll, N, P, S) of Go 1.21 and later |
| Validate.NonLatinPasswords | pkg/models/validate.go:116-125 | runes beyond Latin-1 count in every category: "Σabcdef1!" and "abcdefG1€" are strong passwords |
| Validate.LocationValidation | pkg/models/validate.go:130-137 | true exactly when the value is a string list of length 2 |
| Models.BookDefaults | pkg/models/book.model.go:22-30 | created_on and updated_on are set to now while zero and kept otherwise; no other field changes |
| Models.NewBook | pkg/models/book.model.go:22-30 | the passed book becomes BookDefaults of its old value, and the same object is returned |
| Models.BookDefaultsIdempotent | pkg/models/book.model.go:22-30 | once stamped with a non-zero clock, a second NewBook changes nothing |
| Models.CourseDefaults | pkg/models/course.model.go:22-30 | created_on and updated_on are set to now while zero and kept otherwise; no other field changes |
| Models.NewCourse | pkg/models/course.model.go:22-30 | the passed course becomes CourseDefaults of its old value, and the same object is returned |
| Models.CourseDefaultsIdempotent | pkg/models/course.model.go:22-30 | a second NewCourse changes nothing |
| Models.CartItemDefaults | pkg/models/cartitem.model.go:24-35 | timestamps set while zero; quantity 0 becomes 1, any other (negative included) is kept; nothing else changes |
| Models.NewCartItem | pkg/models/cartitem.model.go:24-35 | the passed item becomes CartItemDefaults of its old value, and the same object is returned |
| Models.CartItemDefaultsIdempotent | pkg/models/cartitem.model.go:24-35 | a second NewCartItem changes nothing |
| Models.StockDefaults | pkg/models/stock.model.go:23-34 | timestamps set while zero; an empty status becomes "available", any other is kept; nothing else changes |
| Models.NewStock | pkg/models/stock.model.go:23-34 | the passed stock becomes StockDefaults of its old value, and the same object is returned |
| Models.StockDefaultsIdempotent | pkg/models/stock.model.go:23-34 | a second NewStock changes nothing |
| Models.MediaDefaults | pkg/models/media.model.go:17-25 | timestamps set while zero; id, path and created_by unchanged |
| Models.NewMedia | pkg/models/media.model.go:17-25 | the passed media becomes MediaDefaults of its old value, and the same object is returned |
| Models.MediaDefaultsIdempotent | pkg/models/media.model.go:17-25 | a second NewMedia changes nothing |
| Models.FeedDefaults | pkg/models/feed.model.go:38-46 | timestamps set while zero; sections and every other field unchanged |
| Models.NewFeed | pkg/models/feed.model.go:38-46 | the passed feed becomes FeedDefaults of its old value, and the same object is returned |
| Models.FeedDefaultsIdempotent | pkg/models/feed.model.go:38-46 | a second NewFeed changes nothing |
| Models.Nested | pkg/models/feed.model.go:23-36 | a section whose options chain `n` levels down has depth n + 1 |
| Models.UnboundedNesting | pkg/models/feed.model.go:23-36 | no depth bound holds for every section: feeds are finite trees of any depth |
| Models.OrderDefaults | pkg/models/order.model.go:33-41 | the inverted rule: a timestamp is overwritten with now only when already set; zero stays zero; nothing else changes |
| Models.NewOrder | pkg/models/order.model.go:33-41 | the passed order becomes OrderDefaults of its old value, and the same object is returned |
| Models.OrderDefaultsLeavesFreshOrder | pkg/models/order.model.go:34-39 | an order with zero timestamps is never stamped |
| Models.OrderStatusKeys | pkg/models/order.model.go:26-27 | the key "status" carries PaymentStatus and "payment_status" carries Status, each present exactly when non-empty |
| Models.UserDefaults | pkg/models/user.model.go:35-47 | verified becomes {false, false}; a set timestamp is overwritten with now and zero stays zero; a non-empty type becomes "user" and an empty one stays; nothing else changes |
| Models.NewUser | pkg/models/user.model.go:35-47 | the passed user becomes UserDefaults of its old value |
| Models.UserDefaultsIdempotent | pkg/models/user.model.go:35-47 | with the same clock reading a second NewUser changes nothing |
| Models.UserDefaultsRestamps | pkg/models/user.model.go:37-39 | with a later clock reading a second NewUser moves created_on again |
| Models.UpdateUserKeys | pkg/models/user.model.go:49-58 | the keys a $set of an UpdateUser writes: each omitempty field exactly when non-empty, and `verified` always |
| Models.RefreshOnlyUpdateKeys | pkg/models/user.model.go:49-58 | an UpdateUser carrying only a refresh token writes refresh_token and the zero `verified` flags, nothing else |
| Models.ApplyUpdateUser | pkg/models/user.model.go:49-58 | after the $set, every written key holds the update's value, `verified` the update's flags, and every other field the stored value |
| Upload.Ext | pkg/utils/upload.go:55 | filepath.Ext: empty, or a suffix of the name that starts with its only '.' and holds no '/' |
| Upload.BaseName | pkg/utils/upload.go:55 | the base name (spaces turned into '-', cut at the first '.') has no '.' and no space and is no longer than the file name |
| Upload.StoredPath | pkg/utils/upload.go:55 | the location starts with "/assets/" and ends with the file's extension |
| Upload.DistinctExtensionsDistinctPaths | pkg/utils/upload.go:55 | files with different extensions never get the same location, whatever the two clock readings |
| Upload.NoDotBeforeExt | pkg/utils/upload.go:55 | the only '.' characters of a location are those of the extension |
| Upload.SaveFile | pkg/utils/upload.go:18-72 | saving succeeds exactly when the file opens and its first bytes read, its detected type is one of image/jpeg, image/png, image/jpg, image/webp and the write succeeds; it then yields the stored path; a read file of another type fails with the message naming that type; a file that does not open fails with the open error |
| Upload.AssetStore.Save | pkg/utils/upload.go:18-72 | the result is SaveFile's, and a location is added to the disk exactly when it succeeds |
| Upload.AssetStore.UploadFile | pkg/utils/upload.go:74-85 | when r.FormFile fails (a form that does not parse, a missing field, or a first file that does not open) the answer is "empty" with no error and nothing is written; otherwise the single file is saved, with no size limit |
| Upload.AssetStore.UploadFiles | pkg/utils/upload.go:87-95 | a form that does not parse gives nil and its error and writes nothing; otherwise the files under the key are saved as SaveAll states |
| Upload.AssetStore.SaveAll | pkg/utils/upload.go:100-114 | the files are saved in form order, one location each; the first file over 2 MiB ends the call with an empty list and the too-big message, the first failed save with nil and its error; the files before it stay written |
| Upload.SavedLocations | pkg/utils/upload.go:112 | one location per file saved so far |
| Upload.FirstFailure | pkg/utils/upload.go:105-111 | the first file from `from` on that is too big or fails to save, with no failing file before it |
| Upload.FirstFailureAt | pkg/utils/upload.go:105-111 | a failing file with none failing before it is the first failure |
| Upload.FirstFailureNone | pkg/utils/upload.go:100-114 | when no file fails there is no first failure |
| Store.IndexOfKey | pkg/services/course.service.go:160 | the position found holds a document with that `_id` and no earlier one does; none found means the id is nil or no document has it |
| Store.Lookup | pkg/services/course.service.go:160 | FindOne({_id: id}): the document returned is in the collection and has that `_id`; none means no document has it |
| Store.LookupOwnKey | pkg/services/course.service.go:160 | in a collection with unique ids, looking up a document's own id finds exactly that document at its own position |
| Store.LookupOwnKeys | pkg/services/course.service.go:160 | the same for every document of the collection at once |
| Store.FilterUnique | pkg/services/course.service.go:91 | a `$match` keeps the collection invariant: its result still has unique, non-nil ids |
| Store.RemoveAt | pkg/services/course.service.go:176 | removing one document shifts the later ones down by one and keeps the earlier ones |
| Store.RemoveKeepsUnique | pkg/services/course.service.go:176 | deleting a document keeps ids unique and leaves no document with the deleted id |
| Store.ReplaceKeepsUnique | pkg/services/course.service.go:202 | replacing a document by one with the same `_id` keeps ids unique |
| Store.ReplaceKey | pkg/services/course.service.go:202 | replacing the document with a given id changes that one position only, and nothing when no document has the id |
| Store.FindByHex | pkg/services/course.service.go:151-166 | FindById: an id ObjectIDFromHex refuses gives the invalid-id error, an id no document has gives the not-found error, and otherwise the stored document with that id |
| Store.Keep | pkg/models/course.model.go:10-19 | a `$set` with an omitempty field takes the update's value when it is not the zero value and keeps the stored one otherwise |
| Store.Collection.InsertOne | pkg/services/course.service.go:33-38 | the document is appended with its own id or the generated one, and InsertedID is that id; an id already present is refused with the duplicate-key error and nothing changes; ids stay unique |
| Store.Collection.DeleteOne | pkg/services/course.service.go:176-184 | the document with the id is removed and DeletedCount is 1, or nothing changes and DeletedCount is 0; afterwards no document has the id |
| Store.Collection.FindOneAndUpdate | pkg/services/course.service.go:200-205 | with ReturnDocument After: the updated document is stored and returned; no document with the id gives ErrNoDocuments and nothing changes; an update error changes nothing |
| Store.Collection.UpdateOne | pkg/services/users.service.go:169 | MatchedCount is 1 exactly when a document has the id, ModifiedCount 1 exactly when the update changed it, and only that document changes |
| Joins.ImageOf | pkg/services/course.service.go:92-115 | the image `$lookup`/`$unwind`/`$addFields`: the media document with the referenced id if there is one, and the url the assets prefix followed by its path; no url without a media document or a path |
| Joins.Members | pkg/services/book.service.go:107-114 | the stocks a `$group` key collects all carry that key and come from the input |
| Joins.FindGroup | pkg/services/book.service.go:109 | the group found carries the key; none found means no group carries it |
| Joins.Groups | pkg/services/book.service.go:107-114 | `$group` by {publisher, year}: every group is built from exactly the stocks with its key (pushed prices and discounts, count), no key has two groups, and a key has a group exactly when some stock carries it |
| Joins.AddStockKeeps | pkg/services/book.service.go:107-114 | adding one stock to the groups of a prefix gives the groups of the longer sequence |
| Joins.AddStockShape | pkg/services/book.service.go:109 | adding a stock keeps every group's key and appends a group only for a key not yet present |
| Joins.AddDistinct | pkg/services/book.service.go:109 | adding a stock keeps group keys distinct |
| Joins.AddCovered | pkg/services/book.service.go:109 | adding a stock keeps the rule that a key has a group exactly when some stock carries it |
| Joins.AddToExisting | pkg/services/book.service.go:110-112 | a stock with an existing key extends that group's pushes and count and leaves the other groups as they were |
| Joins.AddAsNew | pkg/services/book.service.go:109-112 | a stock with a new key makes a one-member group at the end |
| Joins.BumpAt | pkg/services/book.service.go:110-112 | extending a group by a stock of its key is the group of the longer member list |
| Joins.OtherAt | pkg/services/book.service.go:109 | a group of another key is unchanged by the stock |
| Joins.MembersSnoc | pkg/services/book.service.go:109 | the members of a key in a longer sequence are the old members plus the new stock when it has the key |
| Joins.MakeGroupSnoc | pkg/services/book.service.go:110-112 | a group of one more member pushes that member's price and discount when they are set and counts one more |
| Joins.FindGroupSameKeys | pkg/services/book.service.go:109 | groups with the same keys position by position answer every key lookup alike |
| Joins.FindGroupAppend | pkg/services/book.service.go:109 | after appending a group, a key has a group exactly when it had one or the new group carries it |
| Joins.Summary | pkg/services/book.service.go:90-119 | the stocks summary of a book is the grouping of that book's available stocks |
| Joins.Eligible | pkg/services/book.service.go:95-105 | the sub-pipeline match keeps exactly the stocks of the book whose status is "available" |
| Joins.PricesCount | pkg/services/book.service.go:110 | `$push` skips a missing value: when no member has a zero price there is one price per member |
| Joins.DiscountsCount | pkg/services/book.service.go:111 | likewise one discount per member when none is zero |
| Joins.PricesAtMost | pkg/services/book.service.go:110-111 | a group never holds more prices or discounts than members |
| Joins.SummaryCounts | pkg/services/book.service.go:107-114 | in a summary group whose stocks all carry price and discount, count, the number of prices and the number of discounts agree and equal the number of member stocks |
| Query.QueryDefaults | pkg/services/course.service.go:53-60 | a zero limit becomes 20 and a zero page 1; every other field and value is kept |
| Query.NewGetQuery | pkg/services/course.service.go:53-60 | updates the query in place to its defaults |
| Query.QueryDefaultsIdempotent | pkg/services/course.service.go:53-60 | applying the defaults twice is applying them once |
| Query.Skip | pkg/services/course.service.go:62 | skip is (page-1)*limit when that fits in int64, and always an int64 value |
| Query.DefaultsPaginate | pkg/services/course.service.go:53-62 | after the defaults, a non-negative page and limit give a non-negative skip and a positive limit, and page 0 skips nothing |
| Query.MulBound | pkg/services/course.service.go:62 | the product of two bounded non-negative factors stays within the square of the bound |
| Query.IdFilterAccepts | pkg/services/course.service.go:64-70 | an id filter is accepted exactly when it is empty or 24 hex digits; a refusal is a 500 carrying ObjectIDFromHex's message; only the empty string adds no condition |
| Query.SearchWithoutFields | pkg/services/course.service.go:80-89 | a document with neither name nor tags matches exactly the empty search |
| Pipeline.Wrap64 | pkg/services/course.service.go:62 | Go's int64 wrap-around: the result is an int64 congruent to the input modulo 2^64, and equal to it when it fits |
| Pipeline.Filter | pkg/services/course.service.go:91 | `$match`: everything kept satisfies the predicate and comes from the input; every input that satisfies it is kept |
| Pipeline.FilterAppend | pkg/services/course.service.go:91 | filtering a concatenation is concatenating the filters |
| Pipeline.FilterCongruent | pkg/services/course.service.go:91 | predicates that agree on the input keep the same documents |
| Pipeline.FilterNone | pkg/services/course.service.go:91 | nothing is kept exactly when no element satisfies the predicate |
| Pipeline.InsertPos | pkg/services/course.service.go:116 | the insertion point: every element before it has a key not above the inserted one, the one at it a greater key |
| Pipeline.InsertLayout | pkg/services/course.service.go:116 | inserting puts the element at the insertion point and shifts the rest by one |
| Pipeline.InsertKeepsOrder | pkg/services/course.service.go:116 | inserting into a sorted sequence keeps it sorted |
| Pipeline.InsertSorted | pkg/services/course.service.go:116 | inserting keeps it sorted and adds exactly one occurrence of the element |
| Pipeline.SortBy | pkg/services/course.service.go:116 | `$sort` ascending on one key: the result is sorted and a permutation of the input |
| Pipeline.SortByConstant | pkg/services/stock.service.go:114 | when every document has the same key the documents keep their natural order |
| Pipeline.InsertAtEnd | pkg/services/course.service.go:116 | an element whose key is not below any other goes last |
| Pipeline.SortByMembers | pkg/services/course.service.go:116 | sorting neither adds nor loses a document |
| Pipeline.Window | pkg/services/course.service.go:117-118 | `$skip` then `$limit`: the length is min(limit, max(0, n-skip)) and element i is input element skip+i |
| Pipeline.FacetUnwind | pkg/services/course.service.go:116-129 | `$facet` then `$unwind`: a negative skip or non-positive limit is a 500; otherwise no document exactly when nothing matched, and the page counts every match and has the window's length |
| Pipeline.Respond | pkg/services/course.service.go:146-149 | no aggregation document gives the placeholder {docs: [], total: {count: 0}}; otherwise the first document; an error passes through |
| Pipeline.Paginate | pkg/services/course.service.go:116-149 | a Find fails exactly for a bad skip or limit; otherwise count is the number of matches, no match gives the placeholder, and the page has the window's length |
| Pipeline.PaginateWindow | pkg/services/course.service.go:116-118 | document i of the page is match skip+i in `$sort` order |
| Pipeline.PaginateMembers | pkg/services/course.service.go:116-118 | every document of a page is a match, the page is in key order, and a skip past the end gives an empty page |
| Pipeline.PaginateAll | pkg/services/course.service.go:116-118 | whatever holds of every match holds of every document of the page |
| Pipeline.PaginateWhole | pkg/services/course.service.go:116-118 | a first page whose limit covers every match holds every match exactly once |
| Pipeline.OrderKey | pkg/services/course.service.go:116 | `$sort: {order: 1}` with omitempty: a set order sorts by its value, a missing (zero) one before every int64 |
| CourseService.Create | pkg/services/course.service.go:29-40 | the course gets its timestamps and is inserted; on success its `_id` is the inserted id and the collection gained exactly it; a refused insert is a 500 with the shared message and the collection is unchanged |
| CourseService.FindById | pkg/services/course.service.go:151-166 | a malformed id is a 404 "Invalid user_id", an id no course has a 404 "user not found.", otherwise the stored course with that id |
| CourseService.FindByIdOwnHex | pkg/services/course.service.go:151-166 | every stored course is found under the hex form of its own id |
| CourseService.SetCourse | pkg/services/course.service.go:202 | `$set` of a course: refused with the immutable-field error exactly when the update carries another `_id`; the `_id` never changes |
| CourseService.SetCourseEmpty | pkg/services/course.service.go:202 | an update carrying no field leaves the course as it is |
| CourseService.SetCourseIdempotent | pkg/services/course.service.go:202 | applying an update to its own result changes nothing more |
| CourseService.SetCourseFields | pkg/services/course.service.go:202 | each field the update carries is the course's new value; each field it leaves empty keeps the stored value |
| CourseService.UpdateById | pkg/services/course.service.go:188-212 | FindById's errors come first and change nothing; a refused `$set` is a 500 and changes nothing; otherwise the updated course is answered, stored in place of the old one, and found again by the same id |
| CourseService.DeleteById | pkg/services/course.service.go:168-186 | a malformed id is "Invalid user_id", an id no course has "course not found.", otherwise that course is removed; it succeeds exactly when FindById would have found the course, and afterwards FindById fails |
| CourseService.CourseRows | pkg/services/course.service.go:92-115 | each course row is the course with its joined image, one row per course |
| CourseService.Matching | pkg/services/course.service.go:64-89 | the courses the query's id, course_id and search strings ask for, and all of them |
| CourseService.FindFilter | pkg/services/course.service.go:64-91 | once the id strings parse, the `$match` built from them keeps exactly the wanted courses; courses have no `course_id`, so that condition keeps none |
| CourseService.FindOutcome | pkg/services/course.service.go:61-138 | Find fails exactly when an id string is malformed or the skip or limit is refused, and then with a 500 |
| CourseService.FindCount | pkg/services/course.service.go:116-149 | total.count is the number of wanted courses and the page holds min(limit, count-skip) of them |
| CourseService.FindRows | pkg/services/course.service.go:91-129 | every row of a page is a stored, wanted course with the media its image refers to, and the page is in `order` |
| CourseService.FindComplete | pkg/services/course.service.go:116-129 | a first page as long as the matches leaves no wanted course out |
| CourseService.FindPlaceholder | pkg/services/course.service.go:146-148 | with nothing wanted, and in particular with any course_id condition, a well-formed query answers {docs: [], total: {count: 0}} |
| BookService.Create | pkg/services/book.service.go:29-40 | the book gets its timestamps and is inserted; on success its `_id` is the inserted id and the collection gained exactly it; a refused insert is a 500 and nothing changes |
| BookService.FindById | pkg/services/book.service.go:179-260 | a malformed id is a 404 "Invalid user_id", an id no book has a 400 "No Book found", otherwise the stored book with its joined image and its available-stock summary |
| BookService.FindByIdSummary | pkg/services/book.service.go:211-241 | the summary of a found book is the grouping of exactly its available stocks, and every group has at least one member |
| BookService.SetBook | pkg/services/book.service.go:296 | `$set` of a book: refused with the immutable-field error exactly when the update carries another `_id`; the `_id` never changes |
| BookService.SetBookEmpty | pkg/services/book.service.go:296 | an update carrying no field leaves the book as it is |
| BookService.SetBookIdempotent | pkg/services/book.service.go:296 | applying an update to its own result changes nothing more |
| BookService.Merge | pkg/services/book.service.go:301 | decoding the updated book over FindById's map replaces the book's keys and the image by the raw id when the book has one, and keeps `stocks` |
| BookService.UpdateAnswer | pkg/services/book.service.go:290-305 | the answer of UpdateById is the map FindById gives after the update, except that `image` is the raw ObjectId whenever the book has an image |
| BookService.UpdateById | pkg/services/book.service.go:282-306 | FindById's errors come first and change nothing; a refused `$set` is a 500 and changes nothing; otherwise the updated book replaces the stored one and the merged map is answered |
| BookService.BookRows | pkg/services/book.service.go:66-142 | each row is the book with its image, its available-stock summary and its course, one row per book |
| BookService.Matching | pkg/services/book.service.go:46-63 | the books the query's id and search ask for, and all of them |
| BookService.FindFilter | pkg/services/book.service.go:46-65 | once the id string parses, the `$match` keeps exactly the wanted books |
| BookService.FindOutcome | pkg/services/book.service.go:42-165 | Find fails exactly when the id string is malformed or the skip or limit is refused, and then with a 500 |
| BookService.FindCount | pkg/services/book.service.go:144-177 | total.count is the number of wanted books and the page holds min(limit, count-skip) of them |
| BookService.FindRows | pkg/services/book.service.go:65-156 | every row of a page is a stored, wanted book with its own image, stock summary and course, and the page is in `order` |
| BookService.FindComplete | pkg/services/book.service.go:88-156 | the left outer joins drop no book: a first page as long as the matches holds every wanted book |
| BookService.FindPlaceholder | pkg/services/book.service.go:174-176 | with nothing wanted a well-formed query answers the placeholder |
| StockService.Create | pkg/services/stock.service.go:29-40 | the stock gets its timestamps and the "available" status and is inserted; on success its `_id` is the inserted id and the collection gained exactly it; a refused insert is a 500 and nothing changes |
| StockService.FindById | pkg/services/stock.service.go:149-164 | a malformed id is a 404 "Invalid user_id", an id no stock has a 404 "user not found.", otherwise the stored stock with that id |
| StockService.FindByIdOwnHex | pkg/services/stock.service.go:149-164 | every stored stock is found under the hex form of its own id |
| StockService.SetStock | pkg/services/stock.service.go:200 | `$set` of a stock: refused with the immutable-field error exactly when the update carries another `_id`; the `_id` never changes |
| StockService.SetStockEmpty | pkg/services/stock.service.go:200 | an update carrying no field leaves the stock as it is |
| StockService.SetStockIdempotent | pkg/services/stock.service.go:200 | applying an update to its own result changes nothing more |
| StockService.SetStockSold | pkg/services/stock.service.go:200 | an update setting the status to "sold" takes the stock out of every book's available-stock summary |
| StockService.UpdateById | pkg/services/stock.service.go:186-210 | FindById's errors come first and change nothing; a refused `$set` is a 500 and changes nothing; otherwise the updated stock replaces the stored one, is answered, and is found again by the same id |
| StockService.StockRows | pkg/services/stock.service.go:66-112 | each row is the stock with its book and its course when they exist, one row per stock |
| StockService.Matching | pkg/services/stock.service.go:46-63 | the stocks the query's id asks for when there is no search, and all of them |
| StockService.FindFilter | pkg/services/stock.service.go:46-65 | once the id string parses, the `$match` keeps exactly the wanted stocks; stocks have no name or tags, so any search keeps none |
| StockService.FindOutcome | pkg/services/stock.service.go:42-135 | Find fails exactly when the id string is malformed or the skip or limit is refused, and then with a 500; otherwise total.count is the number of wanted stocks |
| StockService.FindWindow | pkg/services/stock.service.go:114-126 | stocks have no `order`, so a page is the window [skip, skip+limit) of the wanted stocks in their natural order, each with its own book and course |
| StockService.FindSearchPlaceholder | pkg/services/stock.service.go:54-63 | a non-empty search matches no stock and answers the placeholder |
| CartItemService.Create | pkg/services/cartitem.service.go:29-40 | the cart item gets its timestamps and is inserted; on success its `_id` is the inserted id and the collection gained exactly it; a refused insert is a 500 and nothing changes |
| CartItemService.FindById | pkg/services/cartitem.service.go:180-195 | a malformed id is a 404 "Invalid user_id", an id no item has a 404 "user not found.", otherwise the stored item with that id |
| CartItemService.FindByIdOwnHex | pkg/services/cartitem.service.go:180-195 | every stored item is found under the hex form of its own id |
| CartItemService.DeleteById | pkg/services/cartitem.service.go:197-215 | a malformed id is "Invalid cartItem_id", an id no item has "cartItem not found.", otherwise that item is removed; it succeeds exactly when FindById would have found the item, and afterwards FindById fails |
| CartItemService.SetCartItem | pkg/services/cartitem.service.go:231 | `$set` of a cart item: refused with the immutable-field error exactly when the update carries another `_id`; the `_id` never changes |
| CartItemService.SetCartItemEmpty | pkg/services/cartitem.service.go:231 | an update carrying no field leaves the item as it is |
| CartItemService.SetCartItemIdempotent | pkg/services/cartitem.service.go:231 | applying an update to its own result changes nothing more |
| CartItemService.SetCartItemQuantity | pkg/services/cartitem.service.go:231 | omitempty drops a zero quantity from the `$set`, so an update never brings a quantity back to zero |
| CartItemService.UpdateById | pkg/services/cartitem.service.go:217-241 | a malformed id is "Invalid cartitem_id"; FindById's error for a missing item; a refused `$set` is a 500; all three change nothing; otherwise the updated item replaces the stored one and is answered |
| CartItemService.BookOf | pkg/services/cartitem.service.go:96-119 | the joined book, when one has the referenced id, carries that book's available-stock summary; no book means no join |
| CartItemService.CartRows | pkg/services/cartitem.service.go:96-143 | each row is the item with its book (and that book's stocks) and its course, one row per item |
| CartItemService.Matching | pkg/services/cartitem.service.go:46-63 | the items the query's id asks for when there is no search, and all of them |
| CartItemService.FindFilter | pkg/services/cartitem.service.go:46-65 | once the id string parses, the `$match` keeps exactly the wanted items; items have no name or tags, so any search keeps none |
| CartItemService.FindOutcome | pkg/services/cartitem.service.go:42-166 | Find fails exactly when the id string is malformed or the skip or limit is refused, and then with a 500 |
| CartItemService.FindCount | pkg/services/cartitem.service.go:145-178 | total.count is the number of wanted items and the page holds min(limit, count-skip) of them |
| CartItemService.FindRows | pkg/services/cartitem.service.go:65-157 | every row is a stored, wanted item with its own book, stocks and course, and the page is in `_id` order |
| CartItemService.FindComplete | pkg/services/cartitem.service.go:119-157 | the left outer joins drop no item: a first page as long as the matches holds every wanted item |
| CartItemService.FindSearchPlaceholder | pkg/services/cartitem.service.go:54-63 | a non-empty search matches no cart item and answers the placeholder |
| MediaService.Create | pkg/services/media.service.go:29-41 | the media is inserted as given, without defaults; on success its `_id` is the inserted id, the answer's path is AppendUrl of the stored path (prefixed with the assets URL unless url.Parse already finds a scheme and host) and the stored path stays the original; a refused insert is a 500 and nothing changes |
| MediaService.FindById | pkg/services/media.service.go:104-119 | a malformed id is a 404 "Invalid media_id", an id no media has a 404 "media not found.", otherwise the stored media with that id |
| MediaService.FindByIdOwnHex | pkg/services/media.service.go:104-119 | every stored media is found under the hex form of its own id |
| MediaService.UrlOf | pkg/services/media.service.go:69 | `$concat` of the assets URL and the path, with no URL test; no url when the path is missing |
| MediaService.MediaRows | pkg/services/media.service.go:69 | each row is the media with its url, one row per media |
| MediaService.Matching | pkg/services/media.service.go:50-56 | the media whose path contains the search, ignoring case, and all of them |
| MediaService.FindOutcome | pkg/services/media.service.go:43-91 | Find fails exactly when the skip or limit is refused, and then with a 500 |
| MediaService.FindCount | pkg/services/media.service.go:70-102 | total.count is the number of wanted media and the page holds min(limit, count-skip) of them |
| MediaService.FindIgnoresId | pkg/services/media.service.go:43-58 | the query's id takes no part in Find, so a malformed one is no error |
| MediaService.FindRows | pkg/services/media.service.go:58-83 | every row of a page is a stored, wanted media with its url, and the page runs from the largest `_id` to the smallest |
| MediaService.FindComplete | pkg/services/media.service.go:70-83 | a first page as long as the matches holds every wanted media |
| MediaService.FindPlaceholder | pkg/services/media.service.go:99-101 | with nothing wanted, a well-formed query answers the placeholder |
| FeedService.Create | pkg/services/feed.service.go:29-40 | the feed gets its timestamps and is inserted; on success its `_id` is the inserted id and the collection gained exactly it; a refused insert is a 500 and nothing changes |
| FeedService.FindById | pkg/services/feed.service.go:284-299 | a malformed id is a 404 "Invalid user_id", an id no feed has a 404 "user not found.", otherwise the stored feed with that id |
| FeedService.FindByIdOwnHex | pkg/services/feed.service.go:284-299 | every stored feed is found under the hex form of its own id |
| FeedService.SetFeed | pkg/services/feed.service.go:335 | `$set` of a feed: refused with the immutable-field error exactly when the update carries another `_id`; the `_id` never changes |
| FeedService.SetFeedEmpty | pkg/services/feed.service.go:335 | an update carrying no field leaves the feed as it is |
| FeedService.SetFeedIdempotent | pkg/services/feed.service.go:335 | applying an update to its own result changes nothing more |
| FeedService.UpdateById | pkg/services/feed.service.go:321-345 | FindById's errors come first and change nothing; a refused `$set` is a 500 and changes nothing; otherwise the updated feed replaces the stored one, is answered, and is found again by the same id |
| FeedService.CourseOf | pkg/services/feed.service.go:71-116 | the `sections.course` join: the course with the referenced id, if any, with its own image joined |
| FeedService.BookOf | pkg/services/feed.service.go:118-193 | the `sections.book` join: the book with the referenced id, if any, with its image and available-stock summary |
| FeedService.SectionsOut | pkg/services/feed.service.go:69-218 | a feed contributes one joined section per stored section, in order, and a feed without sections one bare section |
| FeedService.RowsOf | pkg/services/feed.service.go:69 | the unwound rows of one feed pair the feed with each of its sections in turn |
| FeedService.FindFeed | pkg/services/feed.service.go:222 | the group found has the feed `_id` and is the first such; none found means no group has it |
| FeedService.AddRowsAppend | pkg/services/feed.service.go:220-233 | grouping a concatenation of rows is grouping the first part and then the second |
| FeedService.AddRowsFresh | pkg/services/feed.service.go:220-233 | the rows of a feed whose id has no group yet form exactly one new group at the end, with the sections in their order |
| FeedService.RowsOfLast | pkg/services/feed.service.go:69 | the rows of a section list end with the row of its last section |
| FeedService.PushOntoLast | pkg/services/feed.service.go:223 | a row of the feed heading the last group is pushed onto that group |
| FeedService.Outs | pkg/services/feed.service.go:220-233 | one output per feed: the `$first` fields of the feed and its joined sections |
| FeedService.RegroupUnwound | pkg/services/feed.service.go:69-258 | `$unwind` then `$group` by `_id`: with unique feed ids, each feed comes back once, in order, with its sections joined in their stored order |
| FeedService.UniqueInit | pkg/services/feed.service.go:220-233 | the feeds before the last keep unique ids and non-empty sections, and none has the last one's id |
| FeedService.OutsLast | pkg/services/feed.service.go:220-233 | the outputs of a list are those of all but its last feed followed by the last feed's |
| FeedService.Matching | pkg/services/feed.service.go:46-66 | the feeds the query's id, paralink and search (on name; feeds have no tags) ask for, and all of them |
| FeedService.FindFeeds | pkg/services/feed.service.go:42-283 | with unique feed ids and a well-formed id string, Find is the paginated list of the wanted feeds, each with its joined sections |
| FeedService.FindErrors | pkg/services/feed.service.go:46-270 | Find fails exactly when the id string is malformed or the skip or limit is refused, and then with a 500 |
| FeedService.FindCount | pkg/services/feed.service.go:236-282 | total.count is the number of wanted feeds, not of section rows, and the page holds min(limit, count-skip) of them |
| FeedService.FindRows | pkg/services/feed.service.go:236-247 | each feed of a page is a stored, wanted feed with its joined sections, and the page is in `order` |
| FeedService.FindComplete | pkg/services/feed.service.go:236-247 | a first page as long as the matches holds every wanted feed |
| UserService.Prepared | pkg/services/users.service.go:34-43 | the stored form of a new user: NewUser's defaults, the hashed password and type "user" when none was given |
| UserService.Create | pkg/services/users.service.go:31-52 | a password bcrypt refuses and a refused insert are both a 500 and change nothing; otherwise the user is stored with the hash and handed back with its new id and an empty password |
| UserService.CreatedUser | pkg/services/users.service.go:34-43 | a created user without a type is stored with type "user" under a hash its own password matches |
| UserService.Listed | pkg/services/users.service.go:55-61 | `find` with skip and limit: the users from position skip on, at most |limit| of them, all of them for limit 0 |
| UserService.Shown | pkg/services/users.service.go:74 | a listed user has every stored field but the password, which is empty |
| UserService.Find | pkg/services/users.service.go:54-78 | the users of the page, in natural order, each with its password cleared |
| UserService.ListedShown | pkg/services/users.service.go:55-61 | every listed user is a stored one, and a non-zero limit bounds the number listed |
| UserService.ListedPages | pkg/services/users.service.go:55 | two consecutive pages of the same positive size are the double-size page starting at the first |
| UserService.FindById | pkg/services/users.service.go:79-95 | a malformed id is a 404 "Invalid user_id", an id no user has a 404 "user not found.", otherwise the stored user, hash included |
| UserService.FindByIdOwnHex | pkg/services/users.service.go:79-95 | every stored user is found under the hex form of its own id |
| UserService.DeleteById | pkg/services/users.service.go:97-115 | a malformed id is "Invalid user_id", an id no user has "user not found.", otherwise that user is removed; it succeeds exactly when FindById would have found the user, and afterwards FindById fails |
| UserService.UpdateById | pkg/services/users.service.go:117-140 | a malformed id is a 404; an id no user has is a 500 with the driver's message and changes nothing; otherwise the `$set` is applied to that user only and the updated user is answered without its password |
| UserService.ChangePassword | pkg/services/users.service.go:142-184 | as written: the supplied password is compared as the hash against the stored hash as the plain text, and the hash of the supplied password (not the new one) is written; an unchanged password is "no such field" |
| UserService.FirstLogin | pkg/services/users.service.go:189 | FindOne with `$or` on phone and email: the first user whose phone or email is the non-empty username |
| UserService.FindUsernameAndPassword | pkg/services/users.service.go:186-203 | no user with that phone or email is a 404 "User not Found."; a password that does not match the first one's hash is a 500 "Incorrect password"; otherwise that stored user |
| UserService.RehashLogsIn | pkg/services/users.service.go:155-169 | a user whose password is replaced by the hash of p logs in with p afterwards |
| UserService.FirstLoginCongruent | pkg/services/users.service.go:189 | two user lists that the filter accepts alike position by position find the same first user |
| UserService.ChangeRefusesOwner | pkg/services/users.service.go:147 | with a sound hasher the owner's password matches its stored hash, yet ChangePassword's reversed comparison of the same strings fails |
| UserService.ChangePasswordIntended | pkg/services/users.service.go:142-184 | the corrected change: the stored hash is compared with the current password and the hash of new_password is written; the error cases are those of ChangePassword |
| UserService.IntendedChangeLogsIn | pkg/services/users.service.go:142-184 | the owner passes the corrected comparison, and afterwards new_password is the one that logs in |
| Jwt.AlgOf | pkg/services/auth.service.go:152 | a recognised `alg` name reads back to the algorithm that has it |
| Jwt.AlgRoundTrip | pkg/services/auth.service.go:152 | every algorithm's name reads back as that algorithm |
| Jwt.PairOf | pkg/services/auth.service.go:162 | a recognised key-pair name reads back to the pair that has it |
| Jwt.PairRoundTrip | pkg/services/auth.service.go:162 | every key pair's name reads back as that pair |
| Jwt.Field | pkg/services/auth.service.go:114 | a length-prefixed field is longer than its text |
| Jwt.ReadField | pkg/services/auth.service.go:151 | what follows the field read is strictly shorter than the input |
| Jwt.ReadFieldOf | pkg/services/auth.service.go:151 | reading a written field gives back the text and exactly what followed it |
| Jwt.Unpack | pkg/services/auth.service.go:151 | unpacking asks for exactly n fields |
| Jwt.UnpackPack | pkg/services/auth.service.go:151 | unpacking packed fields gives them back |
| Jwt.Encode | pkg/services/auth.service.go:114 | a signed token is never the empty string |
| Jwt.DecodeEncode | pkg/services/auth.service.go:112-114 | a signed token reads back as the header, claims and key pair it was made from |
| Jwt.EncodeInjective | pkg/services/auth.service.go:112-114 | two different tokens never share a string |
| Jwt.Sign | pkg/services/auth.service.go:112-114 | NewWithClaims(RS256).SignedString: the token decodes to RS256, the claims and the signing pair |
| Jwt.Parse | pkg/services/auth.service.go:151-173 | ParseWithClaims with the services' key function succeeds exactly when the token decodes, its method is RSA, the public key loads and is the signing pair, and `exp` is unset or not past; the claims are the token's |
| Jwt.SignParse | pkg/services/auth.service.go:151-173 | a signed token parses with its own pair until it expires, and with any other pair fails the signature check |
| AuthService.AccessClaims | pkg/services/auth.service.go:90-98 | key type "access", the issuer, the user's id and type, and `exp` JwtExpiration minutes from now in Unix seconds |
| AuthService.RefreshClaims | pkg/services/auth.service.go:119-126 | key type "refresh", the issuer, the user's id, no type, and `exp` RefreshJwtExpiration minutes from now |
| AuthService.GenerateAccessToken | pkg/services/auth.service.go:88-115 | fails with "could not generate refresh token. please try again later" exactly when the access private key does not load; otherwise the access claims signed RS256 with that key |
| AuthService.RefreshToken | pkg/services/auth.service.go:119-142 | the refresh claims signed RS256 with the refresh private key |
| AuthService.StoreRefreshToken | pkg/services/auth.service.go:66-68 | UpdateById with only the refresh token: a malformed id is a 404, a missing user a 500, otherwise that user's update is applied and no other document changes |
| AuthService.StoredSlot | pkg/services/auth.service.go:67 | storing a token replaces the refresh-token slot and resets `verified`: the field is tagged omitempty, but bson never omits a struct value; nothing else changes |
| AuthService.GenerateRefreshToken | pkg/services/auth.service.go:117-147 | a refresh private key that does not load fails and changes nothing; otherwise the token is answered and stored in the user's slot, whatever the store answers |
| AuthService.ExpiriesInRange | pkg/services/auth.service.go:59-61 | without overflow the access expiry is now plus JwtExpiration minutes less 15 minutes, and the refresh expiry now plus RefreshJwtExpiration minutes, in milliseconds |
| AuthService.LoggedIn | pkg/services/auth.service.go:58-62 | the logged-in user carries both tokens and no password, and otherwise the stored fields |
| AuthService.Login | pkg/services/auth.service.go:37-64 | the credentials' errors pass through and change nothing; a key that does not load is a 500 "Error on Token generation" and changes nothing; otherwise the user gets both tokens and their expiries, and the refresh token is stored in that user's slot |
| AuthService.ValidateRefreshToken | pkg/services/auth.service.go:149-192 | success requires a token that parses with the refresh public key, carries a user id and key type "refresh", names a stored user and is exactly that user's stored token; the answer is the claimed id and the stored user's type |
| AuthService.SlotValidates | pkg/services/auth.service.go:149-192 | the refresh token in a user's slot validates exactly until its `exp`, as that user with the stored type |
| AuthService.LoginThenRefresh | pkg/services/auth.service.go:50-192 | the refresh token Login stores validates as that user, with the stored type, exactly until its `exp` |
| AuthService.AccessTokenRefused | pkg/services/auth.service.go:149-180 | an access token never validates as a refresh token |
| AuthService.Logout | pkg/services/auth.service.go:194-196 | the user's slot is overwritten with two spaces, and no other document changes |
| AuthService.LogoutRevokes | pkg/services/auth.service.go:187-188 | after Logout no string validates as that user's refresh token |
| AuthService.LogoutHandler | pkg/controllers/auth.controllers.go:128-131 | GET /auth/logout passes the zero user, whose nil id no stored user has: no document changes and every refresh token validates as before |
| AuthService.SupersededRefused | pkg/services/auth.service.go:187-188 | a token superseded in the slot by another no longer validates |
| Authentication.Contains | pkg/middlewares/authentication.go:28-36 | true exactly when the role is among the roles |
| Authentication.ValidateAccessToken | pkg/middlewares/authentication.go:83-115 | succeeds exactly when the token parses with the access public key, has a user id and has key type "access"; the answer is the user id and user type |
| Authentication.ValidateRefreshToken | pkg/middlewares/authentication.go:116-150 | succeeds exactly when the token parses with the refresh public key, has a user id and has key type "refresh"; the answer is the user id |
| Authentication.ServiceRefreshImpliesMiddleware | pkg/middlewares/authentication.go:116-150 | every token the service's refresh check admits, the middleware's check admits too, with the same user id |
| Authentication.RefreshTokenNotAccess | pkg/middlewares/authentication.go:85-111 | a refresh token is refused as an access token with the RSA verification error |
| Authentication.Unauthorized | pkg/middlewares/authentication.go:45 | a 401 carrying the message |
| Authentication.StrippedBearer | pkg/middlewares/authentication.go:49 | removing the first "Bearer " from "Bearer " plus a token leaves the token |
| Authentication.FindCaller | pkg/middlewares/authentication.go:62 | the user found is stored, has the id and has the token's type; with unique ids, a stored user with that id and a non-empty matching type is found |
| Authentication.Caller | pkg/middlewares/authentication.go:48-66 | fails only with 401; succeeds exactly when the stripped token validates as an access token, its user id is a valid ObjectID and a stored user has that id and type; the answer is that user |
| Authentication.Decide | pkg/middlewares/authentication.go:38-77 | with no header, a protected route is a 401 "Missing Authorization Header" and an open one runs with nil; a refusal is a 401 or a 403 "Forbbiden Access"; a handler given a user gets one that has a phone and an admitted type |
| Authentication.ServeHTTP | pkg/middlewares/authentication.go:38-77 | the decision is the one Decide describes |
| Authentication.RunSound | pkg/middlewares/authentication.go:48-76 | a user handed to the handler is stored, and is the one the valid access token names, with the token's type |
| Authentication.IssuedCaller | pkg/middlewares/authentication.go:48-66 | "Bearer " plus an unexpired access token issued for a stored user authenticates exactly that user |
| Authentication.LoggedInAdmitted | pkg/middlewares/authentication.go:38-76 | a stored user with a phone and an admitted type, presenting its own unexpired access token, runs the handler as itself |
| Authentication.PhonelessBypassesRoles | pkg/middlewares/authentication.go:68-71 | a valid token for a user without a phone runs the handler with nil whatever the roles, admin-only routes included |
| Authentication.OtherRoleForbidden | pkg/middlewares/authentication.go:72-75 | on a protected route, a user whose type is not listed is refused with 403 "Forbbiden Access" |
| Routes.Router.constructor | main.go:33 | mux.NewRouter: a router with no routes |
| Routes.Router.Handle | pkg/routes/users.routes.go:20 | a route registered with Handle or HandleFunc goes after every route registered before it; nothing else changes |
| Routes.Router.RegisterEntity | pkg/routes/books.routes.go:18-24 | appends POST and GET on `/<group>`, then GET, PATCH and DELETE on `/<group>/{<id>}`, each wrapped in AuthWithRoles with the roles of creation, reading or writing |
| Routes.Router.RegisterBooksRoutes | pkg/routes/books.routes.go:14-25 | appends the five `/books` routes: creation, update and deletion for admins, reads for anyone |
| Routes.Router.RegisterCourseRoutes | pkg/routes/course.routes.go:14-27 | appends the five `/courses` routes: creation, update and deletion for admins, reads for anyone |
| Routes.Router.RegisterFeedsRoutes | pkg/routes/feeds.routes.go:14-25 | appends the five `/feeds` routes: creation, update and deletion for admins, reads for anyone |
| Routes.Router.RegisterStocksRoutes | pkg/routes/stocks.routes.go:14-25 | appends the five `/stocks` routes, all admin-only |
| Routes.Router.RegisterCartRoutes | pkg/routes/cartitem.routes.go:14-25 | appends the five `/cart` routes, all for admins and users |
| Routes.Router.RegisterUsersRoutes | pkg/routes/users.routes.go:14-26 | appends the six `/users` routes in source order: `/details` for admins and users, before the admin-only `/{user_id}` routes |
| Routes.Router.RegisterAuthRoutes | pkg/routes/auth.routes.go:13-26 | appends the eight bare `/auth` routes in source order, with their methods |
| Routes.Router.RegisterMediaRoutes | pkg/routes/media.routes.go:14-30 | appends the three bare `/media` routes, then the admin-only upload |
| Routes.MountsPlain | main.go:39-45 | every subrouter is mounted under a plain name other than "assets" |
| Routes.MainTableRoutes | main.go:36-45 | the main table is the assets prefix followed by the subrouters in registration order: users, auth, courses, books, media, stocks, feeds |
| Routes.NewRouter | main.go:33-45 | the router main builds holds exactly that table; the cart routes are not registered |
| Routes.Split | main.go:33 | a path splits into at least one segment, none holding a '/' |
| Routes.SplitCons | main.go:33 | a segment without '/' followed by "/" and the rest splits into that segment and the rest's segments |
| Routes.SplitPaths | main.go:33 | "/a" splits into "" and a, and "/a/b" into "", a and b |
| Routes.CleanSplit | main.go:33 | mux's cleanPath (Go's path.Clean of the rooted path, a trailing '/' put back unless the result is the root) gives a rooted path whose segments are the plain segments kept, plus an empty last one after a trailing '/' |
| Routes.CleanPathIdempotent | main.go:33 | a cleaned path is already clean, so a redirect is never redirected again |
| Routes.CleanCollection | main.go:33 | `/<g>` is clean exactly when g is plain or empty; `/.` and `/..` clean to `/` |
| Routes.CleanItem | main.go:33 | `/<g>/<x>` is clean exactly when g is plain and x plain or empty; for a plain g, `/<g>/.` cleans to `/<g>` and `/<g>/..` to `/` |
| Routes.Dispatch | main.go:33 | Router.ServeHTTP: a path that is not clean is a 301 redirect to its cleaned form, which is itself clean; a clean path is dispatched on its segments |
| Routes.Serve | main.go:33-53 | a 301 exactly for an unclean path, 404 exactly for a clean path no route's path matches, and a handler runs or is refused only for a route that matches path and method |
| Routes.FirstMatch | main.go:33 | the index found matches and no earlier route does; none is found exactly when no route matches |
| Routes.DispatchSegs | main.go:33 | a matched route is in the table and matches; 404 exactly when no route's path matches; 405 exactly when some path matches but no route matches the method |
| Routes.DispatchPicks | main.go:33 | the first matching route is the one dispatched, whatever follows it |
| Routes.DispatchSkip | main.go:33 | routes in front whose paths cannot match do not change the dispatch |
| Routes.FirstMatchSkip | main.go:33 | past routes whose paths cannot match, the first match is found at the same place in the rest, shifted by their number |
| Routes.NoPathSkip | main.go:33 | past routes whose paths cannot match, no path matches in the whole table exactly when none matches in the rest |
| Routes.DispatchTrim | main.go:33 | routes behind whose paths cannot match do not change the dispatch |
| Routes.EntityMounted | pkg/routes/books.routes.go:18-24 | every entity route sits under `/<group>` and is not a prefix route |
| Routes.MountsMounted | main.go:39-45 | every mounted subrouter's routes sit under its own prefix |
| Routes.FlattenNoPath | main.go:39-45 | subrouters mounted under names other than the path's second segment match no path |
| Routes.FlattenDispatch | main.go:39-45 | among subrouters with distinct names, dispatch is the dispatch of the one named by the path's second segment |
| Routes.MainDispatch | main.go:36-45 | below `/assets/`, dispatch in the main router is dispatch in the subrouter named by the path's second segment, and a path under no mounted name finds no route |
| Routes.EntityCollection | pkg/routes/books.routes.go:20-21 | on `/<group>`, POST reaches Create with the creation roles, GET reaches Get with the reading roles, and any other method is 405 |
| Routes.EntityItem | pkg/routes/books.routes.go:22-24 | on `/<group>/<id>`, GET reaches GetById, PATCH Update and DELETE Delete, and any other method is 405 |
| Routes.EntityElsewhere | pkg/routes/books.routes.go:20-24 | deeper paths, and an item path with an empty id, are 404 |
| Routes.UsersCollection | pkg/routes/users.routes.go:20-21 | on `/users`, POST reaches CreateUser, GET reaches GetUsers, and any other method is 405 |
| Routes.UsersDetails | pkg/routes/users.routes.go:22-23 | GET `/users/details` reaches GetUserDetails, although `/{user_id}` also matches it |
| Routes.UsersItem | pkg/routes/users.routes.go:23-25 | any other `/users/<x>` goes to GetUserById, UpdateUser or DeleteUser by method, and any other method is 405 |
| Routes.MediaDispatch | pkg/routes/media.routes.go:21-25 | GET `/media` lists, POST `/media` uploads, and GET and DELETE `/media/<x>` reach GetById and Delete |
| Routes.AuthBare | pkg/routes/auth.routes.go:18-25 | every matched `/auth` route is bare and calls the auth controller; the bare path `/auth` is 404 |
| Routes.AuthSessions | pkg/routes/auth.routes.go:18-25 | POST `/auth/login`, GET `/auth/refresh` and GET `/auth/logout` reach Login, Refresh and Logout |
| Routes.Admit | pkg/middlewares/authentication.go:38-80 | a bare handler runs with no user; a wrapped one runs as EnsureAuth decides, so a user handed over holds an admitted role and a refusal is a 401 or 403 |
| Routes.MountPaths | main.go:39-45 | `/<group>` and `/<group>/<x>` (x plain or empty) of the main router are dispatched by the subrouter mounted under that group; `/<group>/.` is redirected to `/<group>` and `/<group>/..` to `/` |
| Routes.GuardedServe | pkg/middlewares/authentication.go:44-75 | behind a guard with roles, a request without a header never runs, and a user handed over holds one of the roles |
| Routes.UserDetailsFirst | pkg/routes/users.routes.go:22-23 | in the main router, GET `/users/details` reaches GetUserDetails for admins and users, although `/{user_id}` also matches it |
| Routes.UsersAdminOnly | pkg/routes/users.routes.go:20-25 | every `/users` route except GET `/users/details` is admin-only |
| Routes.MountedEntity | main.go:39-45 | under the main router, a mounted entity subrouter dispatches POST and GET on the collection and GET, PATCH and DELETE on a plain item segment, with the roles of creation, reading and writing; item segments "." and ".." are redirected |
| Routes.CatalogueGuards | pkg/routes/books.routes.go:20-24 | on books, courses and feeds, reads are open to anyone and creation and writes are admin-only |
| Routes.StocksAdminOnly | pkg/routes/stocks.routes.go:20-24 | every `/stocks` route is admin-only: no request without a header runs, and a user handed over is an admin |
| Routes.MediaOpen | pkg/routes/media.routes.go:21-23 | listing media, reading one and deleting one (a plain item segment) run for anyone, with no user, whatever the header says; `/media/.` is moved to `/media` and `/media/..` to `/` |
| Routes.MediaUploadAdminOnly | pkg/routes/media.routes.go:25 | uploading to `/media` is admin-only: no request without a header runs, and a user handed over is an admin |
| Routes.AuthOpen | pkg/routes/auth.routes.go:16-25 | no `/auth/<x>` request is refused by a guard or runs with a user (one that is not clean is redirected), and `/auth` itself is 404 |
| Routes.SessionRoutes | pkg/routes/auth.routes.go:18-25 | in the main router, POST `/auth/login`, GET `/auth/refresh` and GET `/auth/logout` reach Login, Refresh and Logout with no user |
| Routes.UnmountedGroup | main.go:39-45 | a group no subrouter is mounted under finds no route, with or without an item segment: a clean path is 404, any other is redirected to its cleaned form |
| Routes.CartUnmounted | main.go:39-45 | no subrouter is mounted under "cart" |
| Routes.NoCartRoutes | pkg/routes/cartitem.routes.go:14-25 | RegisterCartRoutes is never called, so no `/cart` request finds a route: clean ones are 404, `/cart/.` is redirected to `/cart` and `/cart/..` to `/` |

## Left out

- HTTP plumbing: JSON decoding and encoding of requests and responses, CORS, server timeouts, graceful shutdown, logging, mail and the database connection. The controllers and the empty handlers are context, not core; the model stops at the service result the controller would answer.
- Per-operation timeouts (20 s for writes, 10 s for reads) and concurrency: the model is sequential, and no store operation fails with a timeout or a network error.
- The MongoDB driver is modelled through the operations the services send it: insertion order as natural order, `$regex` as a case-insensitive ASCII substring test, and sort ties broken by natural order, which MongoDB does not guarantee.
- An empty `$set: {}` is modelled as a no-op, as MongoDB 5.0 and later treat it; older servers refuse it, and the service would then answer a 500 (CourseService.SetCourseEmpty, BookService.SetBookEmpty, StockService.SetStockEmpty, CartItemService.SetCartItemEmpty, FeedService.SetFeedEmpty, and an UpdateById whose fields are all zero).
- `$group` is modelled as giving its groups in the order their keys first appear (Joins.Groups, FeedService.RegroupUnwound); MongoDB leaves that order unspecified.
- Book, Stock, Feed and Media DeleteById: each calls the package-level `cs` course service, which is never assigned, so the call dereferences nil before any deletion (pkg/services/book.service.go:270, stock.service.go:174, feed.service.go:309, media.service.go:130). A crash is not modelled, and neither is the file removal media deletion would make.
- AuthService Register only forwards to UserService.Create, which is modelled.
- bcrypt is a `Hasher` value: a hash function that may refuse a password, and a comparison. Its salt and cost are not modelled.
- RSA signing and the compact JWT form are replaced by a length-prefixed encoding that names the algorithm and the key pair that signed it. A signature verifies exactly when that pair is the verifying one. jwt-go's error texts are approximated by one message per kind of failure.
- PEM key files are a `KeyFiles` value saying which pair each configured path yields, or that it does not load. A SignedString failure after the key loaded is not modelled.
- `time.Duration` arithmetic in the expiries is unbounded; an overflow of the configured minutes is not modelled.
- viper is an environment map with the defaults of pkg/utils/config.go; config files and flags are not modelled.
- http.DetectContentType and operating-system failures during an upload are inputs carried on the file header. A file that opened once opens again in saveFileinAssests.
- Upload.SaveFile: an io.Copy failure after os.Create leaves a partial file on disk; the model records no location for it.
- Routing covers the mux features the routes use: literal and `{name}` segments, one method per route, path-prefix subrouters, and the assets prefix. Route variables, regular-expression segments, strict slashes and the file server's own answers are not modelled. Path cleaning is modelled on the decoded path (mux's default): the 301's Location is the cleaned path only, without the query string that mux keeps. The auth subrouter is registered by `RegisterAuthToutes` in the source; the model names it `Routes.Router.RegisterAuthRoutes`.
- A handler is a controller and an action name; what the controller then does is context, not core. The one exception is the logout handler (AuthService.LogoutHandler). It calls Logout with `&models.User{}` rather than the authenticated user, so in the running system logout revokes nothing; Logout and LogoutRevokes describe the service called with a real user.
- UserService.Find: requires a skip that is not negative after the 64-bit wrap-around. With a negative skip the driver refuses the cursor, the source ignores that error and dereferences it.
- UserService.ChangePassword: the branch for an update that matches no document, and the re-check of the id, cannot be reached in a sequential model because the user was just found.
- AuthService.GenerateRefreshToken: ignores the StoreRefreshToken result, as the source does, so a failed store still answers the token.
- AuthService.StoredSlot: every update of a user also writes `verified` with its zero value. The field is tagged `bson:"verified,omitempty"` (pkg/models/user.model.go:55), but the bson encoder never omits a struct value, zero or not; this is modelled as written.

## Findings

| source | as written | input that shows it | evidently intended | confidence | as-written member | corrected member |
|---|---|---|---|---|---|---|
| pkg/services/users.service.go:147-155 | CompareHashAndPassword gets the typed password as the hash and the stored hash as the password, and the update writes the hash of the old password instead of the new one | a hasher that marks a hash with a leading "$": stored "$secret", typed password "secret" — the comparison fails, so the owner is refused | compare the stored hash with the typed password, and store the hash of `new_password` | not executed | UserService.ChangePassword, UserService.ChangeRefusesOwner | UserService.ChangePasswordIntended, UserService.IntendedChangeLogsIn |
