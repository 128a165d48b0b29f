# Real-estate marketplace: a Dafny model of the contact-unlock backend and its client logic

The system is a property marketplace. Sellers list land, apartments, villas and commercial
premises. Buyers browse the catalogue, save listings, and pay a fixed fee through the Razorpay
gateway to unlock a seller's contact details for thirty days. It has two parts: an Express and
MongoDB backend (`Backend/`) and a React Native client (`realestate/`).

This project models both parts in Dafny.

**The backend, one module per source file:**
- `PaymentController`: the paid contact-unlock workflow. It opens a gateway order, verifies the
  returned signature, marks the payment paid and upserts a 30-day `Unlock` keyed on buyer and
  property.
- `UnlockController`: contact disclosure, granted only while an unlock's expiry is strictly in
  the future.
- `RazorpayService`: the order options and the signature check.
- `PaymentModel`, `UnlockModel`, `PropertyModel`, `UserModel`: the four schemas.
- `Store`: the database, a class whose collections the controllers update. It carries the
  invariants that the indexes and the workflow maintain.
- `PropertyController`: the listing handlers, with their normalisers, pagination, ownership
  gate and ten-image cap.
- `UserController`, `AuthController`: the account and authentication handlers.
- The validators, `protect`, `restrictTo`, the error handler and the response envelope.

**The client:**
- `ListingApi`, `AuthApi`: the listing and user mappers.
- `AuthStore`, `PaymentStore`, `ListingStore`: the three state stores, as classes. Each action
  takes the outcome of its network call as a parameter.
- `AddListing`: the step and validation logic of the add-listing wizard.

**Shared modules:**
- `Common`: options, results, errors and JavaScript values.
- `Text`: the JavaScript string operations the code relies on (`trim`, `toLowerCase`, `split`,
  `parseInt`, decimal text).
- `Collections`: filtering, first match, and sorting newest first.

**Parameters standing for code outside the model:**
- The clock, as `now` in milliseconds.
- The HMAC-SHA256 of RFC 2104 and the gateway's order call.
- JWT signing and verification, and bcrypt hashing and comparison.
- `Number`, and the regular expression built from the city filter.
- Fresh document ids, and uploaded files.

Two behaviours of the code differ from what one might expect, and the model follows the code:
- Buying one's own listing fails with 400, not 403.
- `verifyPayment` never looks at a payment's earlier status. Verifying an order again succeeds
  and refreshes the unlock's expiry instead of adding a second unlock.

## Model

| member | source | states |
|---|---|---|
| Validator.IndexFrom | Backend/utils/validator.js:2 | the first position at or after `from` holding the character, or none, with nothing earlier matching |
| Validator.ValidateEmail | Backend/utils/validator.js:1-4 | accepts exactly the strings of the shape `\S+@\S+\.\S+`: no white space, an "@" after at least one character, a later "." with a character on each side |
| Validator.EmailScan | Backend/utils/validator.js:2-3 | the earliest-"@", earliest-"." scan finds a match exactly when the pattern has one |
| Validator.PhoneNumbers | Backend/utils/validator.js:6-9 | `^[6-9]\d{9}$` accepts the decimal text of n exactly when 6000000000 <= n < 10000000000 |
| Validator.ValidatePassword | Backend/utils/validator.js:11-13 | true exactly for a string of at least six UTF-16 code units, as JavaScript counts `length`, and then the value is truthy |
| Validator.AstralPasswordAccepted | Backend/utils/validator.js:11-13 | a four-character password with two characters outside the Basic Multilingual Plane is six code units long and passes |
| Validator.MissingKeys | Backend/utils/validator.js:15-23 | the reported keys are never more than the fields |
| Validator.MissingKeysCons | Backend/utils/validator.js:17-21 | the first field's key, when blank, comes before the keys reported for the rest |
| Validator.NothingMissing | Backend/utils/validator.js:15-23 | nothing is reported exactly when every value is truthy and not white space only |
| Validator.MissingKeysExact | Backend/utils/validator.js:18-19 | a key is reported exactly when some field under it is falsy or a white-space-only string |
| Validator.ValidateRequired | Backend/utils/validator.js:15-23 | the loop returns the blank fields' keys in input order |
| ResponseHandler.StatusWord | Backend/utils/responseHandler.js:3 | the status word is always "fail" or "success" |
| ResponseHandler.LeadingFour | Backend/utils/responseHandler.js:3 | for a positive code the word is "fail" exactly when its leading decimal digit is 4 |
| ResponseHandler.ThreeDigitCodes | Backend/utils/responseHandler.js:3 | a three-digit code gives "fail" exactly when it is 4xx, so every 5xx reply says "success" |
| ResponseHandler.NegativeCodes | Backend/utils/responseHandler.js:3 | a negative code never gives "fail" |
| ResponseHandler.SendResponse | Backend/utils/responseHandler.js:1-7 | the reply carries the given code, data and message, and says "fail" exactly when the code's text starts with "4" |
| ResponseHandler.SendSuccess | Backend/utils/responseHandler.js:9-11 | behaves as `sendResponse`: passes code, data and message through, and the status word is "fail" exactly when the code's text starts with "4", so for a three-digit code exactly when it is 4xx |
| ResponseHandler.SendError | Backend/utils/responseHandler.js:13-15 | behaves as `sendResponse` with null data: the given code and message, the status word "fail" exactly when the code's text starts with "4", so for a three-digit code exactly when it is 4xx and "success" for a 5xx |
| ResponseHandler.ServerErrorSaysSuccess | Backend/utils/responseHandler.js:1-15 | an error reply with a 5xx code carries the status word "success" |
| ErrorMiddleware.AppError | Backend/middlewares/error.js:37-43 | the error the handlers construct and production reads back: operational, with the given message and code, status "fail" for 4xx and "error" otherwise (the class itself is assumed, see Left out) |
| ErrorMiddleware.CastErrorReply | Backend/middlewares/error.js:4-5 | a cast error becomes an operational 400 |
| ErrorMiddleware.DuplicateErrorReply | Backend/middlewares/error.js:8-11 | a duplicate-key error becomes an operational 409 |
| ErrorMiddleware.ValidationErrorReply | Backend/middlewares/error.js:14-17 | an operational 400 whose message is "Validation Error: " and the field messages joined by ". " |
| ErrorMiddleware.ValidationFailure | Backend/middlewares/error.js:14-17 | the same failure as an API error: 400 with the joined messages |
| ErrorMiddleware.WithDefaults | Backend/middlewares/error.js:55-56 | a missing or zero code becomes 500, a missing or empty status "error", and nothing else changes |
| ErrorMiddleware.HandleError | Backend/middlewares/error.js:54-71 | the successive reassignments give the reply of the last matching rule (expired token, bad token, validation, duplicate, cast), after the defaults |
| ErrorMiddleware.ProductionReplies | Backend/middlewares/error.js:62-70 | in production: expired token 401 with the session message, bad token 401, validation 400 with the joined messages, duplicate key 409, cast error 400 "Invalid path: value" |
| ErrorMiddleware.ProductionFallback | Backend/middlewares/error.js:37-52 | an unrecognised operational error keeps its code and message; a non-operational one becomes 500 "error" with the fixed message; no stack leaks |
| ErrorMiddleware.DevelopmentReply | Backend/middlewares/error.js:27-35 | in development the error goes out unmapped, with its defaulted code, its message and its stack |
| AuthMiddleware.HeaderBeatsCookie | Backend/middlewares/auth.js:13-17 | with a "Bearer" header the cookie is never consulted |
| AuthMiddleware.CookieWithoutHeader | Backend/middlewares/auth.js:15-16 | without such a header a non-empty cookie is the token |
| AuthMiddleware.BareBearer | Backend/middlewares/auth.js:13-14 | a header of just "Bearer" yields no token, whatever the cookie |
| AuthMiddleware.BearerToken | Backend/middlewares/auth.js:13-14 | "Bearer " followed by a space-free token yields exactly that token |
| AuthMiddleware.Protect | Backend/middlewares/auth.js:9-40 | no token gives 401 not-logged-in; a token that fails verification 401 invalid; a verified id with no user 401 user-gone; otherwise the request proceeds with that user |
| RoleMiddleware.RestrictTo | Backend/middlewares/role.js:7-16 | the request passes exactly when the user's role is listed; otherwise 403 naming the roles joined by ", " |
| RazorpayService.OrderOptionsFor | Backend/services/razorpayService.js:9-17 | the order keeps amount and receipt, in "INR", with automatic capture |
| RazorpayService.PayloadSplits | Backend/services/razorpayService.js:28 | the signed text `orderId|paymentId` determines both ids when neither contains "|" |
| RazorpayService.VerifySignature | Backend/services/razorpayService.js:26-31 | true exactly when the signature equals the HMAC of `orderId|paymentId` under the secret |
| RazorpayService.SignatureDeterministic | Backend/services/razorpayService.js:26-31 | at most one signature is accepted for a given order and payment |
| PaymentModel.ParseStatus | Backend/models/paymentModel.js:28-32 | the status enum accepts exactly "created", "paid", "failed" and "refunded", each naming its own status |
| PaymentModel.NewPayment | Backend/models/paymentModel.js:3-39 | a new payment is "created" in "INR", with purpose "seller_contact_unlock" unless given, no gateway payment id or signature, and valid exactly when buyer, property and order id are set |
| PaymentModel.FindOrder | Backend/Controllers/paymentController.js:84-89 | the first payment with this order id, buyer and property, or none exactly when no payment matches |
| PaymentModel.MarkPaid | Backend/Controllers/paymentController.js:90-96 | the payment becomes "paid" with the gateway payment id and signature; nothing else but `updatedAt` changes |
| PaymentModel.MarkPaidTwice | Backend/Controllers/paymentController.js:84-96 | marking a payment paid twice with the same ids equals marking it once |
| UnlockModel.ExpiryFrom | Backend/models/unlockModel.js:25-29 | an unlock lasts 2592000000 ms, thirty days |
| UnlockModel.UniqueAtMostOne | Backend/models/unlockModel.js:35 | under the unique (buyer, property) index a pair has at most one unlock, and exactly one when any exists |
| UnlockModel.NoneCountZero | Backend/models/unlockModel.js:35 | a pair without a matching unlock counts zero |
| UnlockModel.FindActive | Backend/Controllers/unlockController.js:14-18 | an unlock for the pair that expires strictly after now, or none exactly when there is no such unlock |
| UnlockModel.Upsert | Backend/Controllers/paymentController.js:105-115 | afterwards some unlock for the pair has the new seller, payment and expiry; at most one document is added; every changed or added document is that one; other pairs' documents stay; every existing document keeps its id, creation time, buyer and property, and a changed one takes `updatedAt = now`; a document is added exactly when the pair had none, with the new id and both timestamps `now` |
| UnlockModel.UpsertKeepsUnique | Backend/Controllers/paymentController.js:104-115 | an upsert keeps the (buyer, property) index unique |
| UnlockModel.UpsertExactlyOne | Backend/Controllers/paymentController.js:104-115 | after an upsert the pair has exactly one unlock, however often it ran |
| UnlockModel.UpsertGrants | Backend/Controllers/paymentController.js:105-115 | after an upsert the active unlock is the one just written at every instant before its expiry, and there is none from the expiry on |
| UnlockModel.UpsertAgain | Backend/Controllers/paymentController.js:104 | a second upsert for the same pair inserts nothing |
| UnlockModel.SamePairSameIndex | Backend/models/unlockModel.js:35 | under the index two unlocks of the same pair are the same document |
| UnlockModel.UpsertLeavesOthers | Backend/Controllers/paymentController.js:106 | an upsert changes no other pair's active unlock |
| UserModel.ParseRole | Backend/models/userModel.js:30-34 | the role enum accepts exactly "buyer" and "seller" |
| UserModel.FindUser | Backend/middlewares/auth.js:32 | the position of the user with this id, or none exactly when no user has it |
| UserModel.FindByEmail | Backend/Controllers/authController.js:82 | the first user with the lower-cased email, or none exactly when no user has it |
| PaymentController.UnlockPrice | Backend/Controllers/paymentController.js:8 | the price is never zero, and 9900 paise when the environment sets none |
| PaymentController.UnlockPriceFromText | Backend/Controllers/paymentController.js:8 | a decimal price in the environment is used as written, except that zero falls back to 9900 |
| PaymentController.Receipt | Backend/Controllers/paymentController.js:44 | the receipt is a prefix of `unlock_<buyer>_<property>` of at most 40 characters, and the whole text when that fits |
| PaymentController.OrderGateCases | Backend/Controllers/paymentController.js:15-41 | a missing id gives 400 first; an absent property 404; the checks all pass exactly when the property exists, is active, is not the caller's own and has no unexpired unlock for the caller; "already unlocked" only when such an unlock exists |
| PaymentController.CreatePaymentOrder | Backend/Controllers/paymentController.js:14-64 | a failed check replies its error and stores nothing; otherwise the gateway order for the price and receipt, and on success one new "created" payment appended and a 201 with order id, price, "INR" and payment id; the ledger invariant holds after |
| PaymentController.VerifyPayment | Backend/Controllers/paymentController.js:70-121 | missing fields 400, a bad signature 400, no matching payment 404, all with no change; otherwise the payment is marked paid, and then either 404 when the property is gone or the unlock is upserted with the property's seller and a 30-day expiry; users and properties never change; the ledger invariant holds after |
| PaymentController.MyPayments | Backend/Controllers/paymentController.js:127-133 | exactly the caller's payments, newest first, with their count; each of the caller's payments appears as many times as it is stored and no other payment appears |
| PaymentController.PaymentListingOf | Backend/Controllers/paymentController.js:128-129 | `populate("property", "title location.city propertyType")`: nothing exactly when no stored listing has the id, otherwise the title, city and type of a listing with that id |
| PaymentController.GetMyPayments | Backend/Controllers/paymentController.js:127-133 | the reply lists the caller's payments in the order and number of `MyPayments`, each with its listing populated as `PaymentListingOf` gives it, and the count is their number |
| PaymentController.AppendKeepsLedger | Backend/Controllers/paymentController.js:48-54 | appending a valid payment with a fresh id keeps every unlock backed by a paid payment of the same buyer and property |
| PaymentController.MarkPaidKeepsLedger | Backend/Controllers/paymentController.js:84-96 | marking a payment paid keeps every unlock backed by a paid payment |
| PaymentController.UpsertKeepsLedger | Backend/Controllers/paymentController.js:105-115 | upserting the unlock for a paid payment keeps the unlocks unique, valid and backed by paid payments |
| UnlockController.ContactOf | Backend/Controllers/unlockController.js:30-39 | the disclosed contact is the seller's name, email and phone, nothing else |
| UnlockController.GetSellerContact | Backend/Controllers/unlockController.js:10-42 | 403 exactly when the buyer has no unexpired unlock for the property; with one, 404 exactly when the recorded seller no longer exists, and otherwise the reply is that seller's name, email and phone with the unlock's expiry |
| UnlockController.ExpiryIsStrict | Backend/Controllers/unlockController.js:17 | at the expiry instant itself the contact is refused |
| UnlockController.GrantThenContact | Backend/Controllers/paymentController.js:105-115 | after verification the buyer reads the recorded seller's contact for 30 days, until the expiry, and is refused from then on |
| UnlockController.ReverifyRefreshes | Backend/Controllers/paymentController.js:104-115 | verifying again for an unlocked pair keeps one unlock, whose expiry counts from the second verification |
| UnlockController.GetMyUnlocks | Backend/Controllers/unlockController.js:48-57 | exactly the caller's unexpired unlocks, newest first, with their count; each appears as many times as it is stored and no other unlock appears |
| UnlockController.UnlockListingOf | Backend/Controllers/unlockController.js:53 | `populate("property", "title location.city propertyType price images")`: nothing exactly when no stored listing has the id, otherwise those fields of a listing with that id |
| UnlockController.MyUnlocksReply | Backend/Controllers/unlockController.js:48-57 | the reply lists the unlocks of `GetMyUnlocks` in its order and number, each with its listing populated as `UnlockListingOf` gives it, and the count is their number |
| Store.Database.constructor | Backend/models/userModel.js:4-48 | an empty database satisfies every collection invariant |
| Store.WriteUsers | Backend/models/userModel.js:4-48 | a valid write to the users leaves the other collections as they were and keeps the database valid |
| PropertyModel.ParsePropertyType | Backend/models/propertyModel.js:26-30 | the enum accepts exactly "land", "apartment", "villa" and "commercial" |
| PropertyModel.ParseAreaUnit | Backend/models/propertyModel.js:33 | the enum accepts exactly "sqft", "sqyd", "acres", "cents" and "guntas" |
| PropertyModel.ParseFacing | Backend/models/propertyModel.js:67-70 | the enum accepts exactly the eight compass names |
| PropertyModel.ParseListingStatus | Backend/models/propertyModel.js:77-81 | the enum accepts exactly "active", "sold" and "inactive" |
| PropertyModel.ParseDistanceUnit | Backend/models/propertyModel.js:54 | the enum accepts exactly "meters", "feet" and "km" |
| PropertyModel.ParseRoadType | Backend/models/propertyModel.js:56-59 | the enum accepts exactly the five road types |
| PropertyModel.ImageErrors | Backend/models/propertyModel.js:3-6 | no image errors exactly when every image has a `public_id` and a `url` |
| PropertyModel.ListingFieldErrors | Backend/models/propertyModel.js:10-30 | no messages exactly when seller and title are set, the title fits 120 and the description 2000 UTF-16 code units, and the type is one of the enum |
| PropertyModel.MeasureFieldErrors | Backend/models/propertyModel.js:31-44 | no messages exactly when area and price are not negative, the unit is in the enum, address, city and state are set and the pincode is six digits or empty |
| PropertyModel.RoadFieldErrors | Backend/models/propertyModel.js:50-60 | no messages exactly when the road distance is not negative and unit and road type are in their enums |
| PropertyModel.TailFieldErrors | Backend/models/propertyModel.js:67-81 | no messages exactly when the facing and status are in their enums and there are at most 10 complete images |
| PropertyModel.PropertyErrors | Backend/models/propertyModel.js:8-88 | a document has no validation messages exactly when it satisfies every field constraint |
| PropertyModel.FindProperty | Backend/Controllers/propertyController.js:134-139 | the position of the property with this id, or none exactly when no property has it |
| PropertyController.PlainWordIsNormal | Backend/models/propertyModel.js:69 | a word of lower-case letters and dashes has no separator, no space and no upper case |
| PropertyController.NoSepNoSpace | Backend/Controllers/propertyController.js:8 | a text without spaces or underscores has no white space |
| PropertyController.FacingText | Backend/Controllers/propertyController.js:8 | the normalised facing has no white space or underscore, is lower case, and keeps the letters of the trimmed, lower-cased input in order |
| PropertyController.NormalizeFacing | Backend/Controllers/propertyController.js:6-9 | an absent or empty value passes through; any other string comes back separator-free and lower case |
| PropertyController.FacingTextIdempotent | Backend/Controllers/propertyController.js:6-9 | normalising a facing twice gives the same as once |
| PropertyController.CanonicalFacing | Backend/Controllers/propertyController.js:6-9 | every stored compass value is left as it is |
| PropertyController.Respell | Backend/Controllers/propertyController.js:14 | "acre" becomes "acres" and every other text is kept |
| PropertyController.AcresNormal | Backend/Controllers/propertyController.js:14 | "acres" is lower case with no white space at either end |
| PropertyController.LowerTrimmedEnds | Backend/Controllers/propertyController.js:13 | lower-casing a trimmed text keeps it trimmed and makes it lower case |
| PropertyController.AreaUnitTextNormal | Backend/Controllers/propertyController.js:11-16 | a normalised unit is lower case and has no white space at either end |
| PropertyController.AcreBecomesAcres | Backend/Controllers/propertyController.js:13-15 | the result is "acres" exactly when the trimmed, lower-cased input is "acre" or "acres"; otherwise it is that trimmed, lower-cased text |
| PropertyController.NormalizeAreaUnit | Backend/Controllers/propertyController.js:11-16 | an absent or empty value passes through; any other string comes back lower case |
| PropertyController.AreaUnitTextIdempotent | Backend/Controllers/propertyController.js:11-16 | normalising a unit twice gives the same as once |
| PropertyController.PlainWordUnchanged | Backend/Controllers/propertyController.js:11-16 | a lower-case dashed word is kept, except "acre", which becomes "acres" |
| PropertyController.StoredUnitWord | Backend/models/propertyModel.js:33 | the stored unit names are plain lower-case words and none is "acre" |
| PropertyController.AcreRespelled | Backend/Controllers/propertyController.js:14 | "acre" normalises to "acres" |
| PropertyController.CanonicalAreaUnit | Backend/Controllers/propertyController.js:11-16 | every stored unit name is left as it is and "acre" becomes the stored "acres" |
| PropertyController.BuildQuery | Backend/Controllers/propertyController.js:94-105 | each filter is set exactly when its parameter is present and not empty; `hasRoadAccess` is set whenever given and is true exactly for "true" |
| PropertyController.QueryBounds | Backend/Controllers/propertyController.js:94-105 | without parameters every active listing matches; a matching listing respects the minimum and maximum price |
| PropertyController.ParamOr | Backend/Controllers/propertyController.js:108-109 | `parseInt(text) || fallback` is never zero for a non-zero fallback and is the fallback when the parameter is absent |
| PropertyController.Page | Backend/Controllers/propertyController.js:108 | the page is at least 1, 1 by default, and a positive number given is used |
| PropertyController.Limit | Backend/Controllers/propertyController.js:109 | the limit is at most 50 and never 0, 10 by default, and a number from 1 to 50 is used |
| PropertyController.PageCount | Backend/Controllers/propertyController.js:125 | the ceiling of total / limit: enough pages for the total and no more |
| PropertyController.CeilingBounds | Backend/Controllers/propertyController.js:125 | the rounded-up quotient covers the total and one page fewer does not |
| PropertyController.FloorBounds | Backend/Controllers/propertyController.js:125 | the rounded-down quotient does not exceed the total and one more does |
| PropertyController.SkipSign | Backend/Controllers/propertyController.js:110 | the skip is negative exactly for a page after the first with a negative limit |
| PropertyController.Window | Backend/Controllers/propertyController.js:116-117 | skip then limit select the positions from `skip` on, at most `count` of them |
| PropertyController.WithoutSeller | Backend/Controllers/propertyController.js:114 | the public view drops the seller and nothing else |
| PropertyController.SellerHidden | Backend/Controllers/propertyController.js:114 | two listings differing only in their seller look the same to the public |
| PropertyController.Views | Backend/Controllers/propertyController.js:113-114 | each listing read is shown as its public view, in order |
| PropertyController.Catalogue | Backend/Controllers/propertyController.js:113-117 | a page holds at most `limit` listings, newest first, each the public view of a stored listing that passes the filter; its length is exactly what is left of the matches after `skip`, capped at `limit`, and it is the public view of that window of `CatalogueOrder` |
| PropertyController.CatalogueOrder | Backend/Controllers/propertyController.js:112-114 | the matches of `find(query).sort({ createdAt: -1 })`: as many as `countDocuments` counts, newest first, and a permutation of the matching listings |
| PropertyController.WindowConcat | Backend/Controllers/propertyController.js:115-116 | the window after `skip` of length `a` followed by the window after `skip + a` of length `b` is the window after `skip` of length `a + b` |
| PropertyController.CatalogueContinues | Backend/Controllers/propertyController.js:109-117 | a page followed by the page after it is the double-length page from the same start |
| PropertyController.NextPageContinues | Backend/Controllers/propertyController.js:107-117 | page n + 1 continues page n: with `skip = (page - 1) * limit`, the two pages together are the double-length page starting at page n |
| PropertyController.WholeCatalogue | Backend/Controllers/propertyController.js:111-117 | a limit no smaller than the match count returns every match, newest first |
| PropertyController.GetAllProperties | Backend/Controllers/propertyController.js:93-128 | a city pattern that `new RegExp` rejects (line 96) or a negative skip (a later page with a negative limit) ends in a 500, and nothing else does; otherwise the reply has the filter's match count, the page, the ceiling page count and the page's listings |
| PropertyController.CatalogueViews | Backend/Controllers/propertyController.js:113-117 | every listing on a page is the public view of a stored listing that passes the filter |
| PropertyController.GetProperty | Backend/Controllers/propertyController.js:134-139 | 404 exactly when no listing has the id; otherwise the listing's public view |
| PropertyController.GetMyListings | Backend/Controllers/propertyController.js:237-240 | exactly the caller's listings, seller kept, newest first, with their count; each appears as many times as it is stored and no other listing appears |
| PropertyController.MintImages | Backend/Controllers/propertyController.js:33-37 | one image per URL, in order, each with its minted public id |
| PropertyController.ImagesFor | Backend/Controllers/propertyController.js:23-49 | the uploaded files when there are any, else the URLs in the body, else the single placeholder; never empty |
| PropertyController.NewPropertyShape | Backend/Controllers/propertyController.js:66-83 | a new listing belongs to its creator, is active and not featured, keeps the images given, and stores the facing and unit normalised |
| PropertyController.Validated | Backend/Controllers/propertyController.js:71 | a document is written exactly when it satisfies every schema constraint |
| PropertyController.AppendKeepsProperties | Backend/Controllers/propertyController.js:71-83 | appending a valid listing with a fresh id keeps the collection valid |
| PropertyController.Insert | Backend/Controllers/propertyController.js:71-83 | a valid document is appended and anything else leaves the collection unchanged; no other collection changes |
| PropertyController.CreateProperty | Backend/Controllers/propertyController.js:22-86 | the new document, with its images chosen as above, is validated and stored; a stored listing belongs to the caller and has at least one image |
| PropertyController.OwnerGate | Backend/Controllers/propertyController.js:146-151 | 404 exactly when no listing has the id, 403 when it belongs to someone else, else the listing's position |
| PropertyController.OwnerGateOwned | Backend/Controllers/propertyController.js:149 | with unique ids the caller passes exactly when the listing is theirs |
| PropertyController.ApplyPatch | Backend/Controllers/propertyController.js:164-183 | the update keeps id and creation time, appends the new images, and an empty body only appends images |
| PropertyController.AcceptedImages | Backend/Controllers/propertyController.js:155-161 | the first files that still fit under 10 images: all of them, or enough to reach 10 |
| PropertyController.ReplaceKeepsProperties | Backend/Controllers/propertyController.js:179-183 | replacing a listing by a valid one with the same id keeps the collection valid |
| PropertyController.Replace | Backend/Controllers/propertyController.js:179-183 | with validators on, the listing is replaced exactly when the new document is valid |
| PropertyController.UpdateProperty | Backend/Controllers/propertyController.js:145-186 | 404 or 403 with no change; 400 when files come for a listing with 10 images; otherwise the patched document with the accepted files is validated and stored; an updated listing has at most 10 images |
| PropertyController.RemoveKeepsProperties | Backend/Controllers/propertyController.js:204 | removing a listing keeps the collection valid and leaves no listing with its id |
| PropertyController.DeleteProperty | Backend/Controllers/propertyController.js:192-207 | 404 or 403 with no change; a rejected Cloudinary deletion of its images (line 202) is a 500 with no change; otherwise exactly that listing is removed |
| PropertyController.WithoutImage | Backend/Controllers/propertyController.js:227 | every image with that public id goes and the others stay; the list shrinks when one matched and is unchanged otherwise |
| PropertyController.FewerImagesValid | Backend/Controllers/propertyController.js:227-228 | keeping a subset of a valid listing's images leaves it valid |
| PropertyController.DeletePropertyImage | Backend/Controllers/propertyController.js:213-231 | 404 or 403 with no change; a public id that `decodeURIComponent` rejects (line 221) is a 500 with no change; 404 when no image has the decoded public id; a rejected Cloudinary deletion (line 225) is a 500 with no change; otherwise those images are removed and the rest returned |
| UserController.FindUserUnique | Backend/Controllers/userController.js:88 | with unique ids, looking a user up by its own id finds that user |
| UserController.ReplaceKeepsIds | Backend/Controllers/userController.js:96 | rewriting a user with the same id keeps the ids unique |
| UserController.ReplaceKeepsEmails | Backend/models/userModel.js:15 | rewriting a user with the same email keeps the emails unique |
| UserController.ReplaceKeepsSchema | Backend/Controllers/userController.js:29-32 | rewriting a user with a valid one keeps every user valid |
| UserController.ReplaceKeepsUsers | Backend/Controllers/userController.js:29-32 | rewriting a user with a valid one of the same id and email keeps the collection valid |
| UserController.ProfileUpdatesFor | Backend/Controllers/userController.js:24-27 | name and phone are set exactly when given and not empty, the avatar exactly when uploaded, each with the value given |
| UserController.BuildProfileUpdates | Backend/Controllers/userController.js:24-27 | the successive `if`s build exactly those updates |
| UserController.ProfileErrors | Backend/Controllers/userController.js:29-32 | no validation messages exactly when a given name trims to 1..60 UTF-16 code units and a given phone matches the Indian pattern |
| UserController.ApplyProfile | Backend/Controllers/userController.js:29-32 | the update sets the trimmed name, the phone and the avatar when given, refreshes `updatedAt`, and never changes id, email, password, role or saved listings |
| UserController.ApplyProfileValid | Backend/Controllers/userController.js:29-32 | a valid user updated with validated fields stays valid |
| UserController.StaleAvatar | Backend/Controllers/userController.js:17-18 | an old avatar is deleted exactly when the user exists, has an avatar and its public id is present and non-empty; that public id is the one deleted |
| UserController.UpdateProfile | Backend/Controllers/userController.js:11-35 | with a file attached and a stale avatar, a rejected Cloudinary deletion (line 18) is a 500 with no change; `removed` is exactly the public id a successful deletion removed; an update refused after that deletion leaves the stored avatar naming the removed image; otherwise failed validators give 400 and no change, a vanished user gives a null user and no change, and else exactly that user is rewritten and returned |
| UserController.WriteProfile | Backend/Controllers/userController.js:24-34 | failed validators give 400 and no change; a missing user gives a null user and no change; otherwise exactly that user is rewritten with the given fields and returned |
| UserController.ChangePassword | Backend/Controllers/userController.js:40-57 | missing passwords 400; a wrong current password 401; a new password under 6 UTF-16 code units fails validation; otherwise only that user's hash and timestamp change |
| UserController.Populate | Backend/Controllers/userController.js:64-67 | the saved listings' public views, never more than the ids, each a stored listing with a saved id; when all exist, one per id in order |
| UserController.PopulateLive | Backend/Controllers/userController.js:64-67 | with dangling ids among the saved ones, the result is exactly the public view of the listing of each id that resolves, one per such id, in the order of the ids |
| UserController.GetSavedListings | Backend/Controllers/userController.js:63-73 | the caller's populated saved listings; a vanished caller ends in a 500 |
| UserController.FindUserAfterReplace | Backend/Controllers/userController.js:96 | rewriting a user with the same id does not change any lookup by id |
| UserController.Save | Backend/Controllers/userController.js:79-102 | 404 exactly when the listing does not exist; 400 exactly when it is already saved; a 500 exactly when the listing exists but the caller vanished; success exactly when the listing exists, the caller exists and has not saved it; a success appends the id to the caller's list and changes nothing else; a failure changes nothing |
| UserController.Unsave | Backend/Controllers/userController.js:108-127 | 404 exactly when the id is not saved; a 500 exactly when the caller vanished; success exactly when the caller has the id saved; a success removes every occurrence from the caller's list and changes nothing else |
| UserController.SaveThenUnsave | Backend/Controllers/userController.js:79-127 | saving an unsaved listing and then unsaving it both succeed and give every user back their list |
| UserController.SaveTwice | Backend/Controllers/userController.js:91-93 | saving the same listing again is refused and changes nothing |
| UserController.SaveListing | Backend/Controllers/userController.js:79-102 | the handler's reply and new users are those `Save` states; the database stays valid |
| UserController.UnsaveListing | Backend/Controllers/userController.js:108-127 | the handler's reply and new users are those `Unsave` states; the database stays valid |
| AuthController.MissingFieldsError | Backend/Controllers/authController.js:11-13 | 400 "Missing required fields: " with the keys joined by ", " |
| AuthController.ViewOf | Backend/Controllers/authController.js:56-63 | the reply's user carries id, name, email, phone, role and verification |
| AuthController.ViewHidesPassword | Backend/Controllers/authController.js:56-63 | the reply's user does not depend on the password hash |
| AuthController.SessionCookie | Backend/Controllers/authController.js:45-50 | the `token` cookie holds the token, is HTTP-only, secure in production, and lives 30 days |
| AuthController.FilledNotBlank | Backend/utils/validator.js:18 | a body field counts as filled exactly when `validateRequired` does not report it |
| AuthController.RegisterFieldsMissing | Backend/Controllers/authController.js:10-13 | nothing is reported missing exactly when name, email, phone and password are all filled |
| AuthController.RefusalError | Backend/Controllers/authController.js:11-25 | every input refusal is a 400 |
| AuthController.RegisterGate | Backend/Controllers/authController.js:10-25 | blank fields are refused first with all their names, then a bad email, a bad phone, a short password, each only when the earlier checks pass; none exactly when all pass |
| AuthController.RoleText | Backend/Controllers/authController.js:40 | `role || 'buyer'` |
| AuthController.CreateErrors | Backend/Controllers/authController.js:35-41 | creation fails validation exactly when the trimmed name exceeds 60 UTF-16 code units or the role is not "buyer" or "seller" |
| AuthController.NewUser | Backend/Controllers/authController.js:35-41 | the new user has the lower-cased email, the phone, the role, the hashed password, is unverified and has no saved listings |
| AuthController.LowerKeepsEmail | Backend/models/userModel.js:15-17 | lower-casing keeps an email's shape |
| AuthController.NewUserValid | Backend/Controllers/authController.js:35-41 | a user created from input that passed the checks is valid |
| AuthController.AppendKeepsIds | Backend/Controllers/authController.js:35 | appending a user with a fresh id keeps ids unique |
| AuthController.AppendKeepsEmails | Backend/models/userModel.js:15 | appending a user with a fresh email keeps emails unique |
| AuthController.AppendKeepsSchema | Backend/Controllers/authController.js:35 | appending a valid user keeps every user valid |
| AuthController.AppendKeepsUsers | Backend/Controllers/authController.js:35 | appending a valid user with fresh id and email keeps the collection valid |
| AuthController.Register | Backend/Controllers/authController.js:7-67 | input refusals and an existing email or phone give 400 with no change; failed creation validators give 400; otherwise exactly the new user is appended and the 201 reply carries its view, the token and the cookie; the role defaults to buyer |
| AuthController.LoginFieldsMissing | Backend/Controllers/authController.js:72-75 | nothing is reported missing exactly when email and password are filled |
| AuthController.LoginGate | Backend/Controllers/authController.js:72-79 | a refusal is either the missing fields or a bad email; passing implies both fields are filled |
| AuthController.LoginGateSpec | Backend/Controllers/authController.js:72-79 | blank fields are refused with their names; filled fields pass exactly when the email has the accepted shape |
| AuthController.CheckCredentials | Backend/Controllers/authController.js:81-110 | 401 exactly when no user has the lower-cased email or the password does not match its hash; otherwise the 200 reply for that user |
| AuthController.Login | Backend/Controllers/authController.js:69-111 | input refusals first, then the credential check |
| AuthController.Logout | Backend/Controllers/authController.js:113-125 | the cookie is emptied and expired at the epoch |
| AuthController.GetMe | Backend/Controllers/authController.js:127-145 | the caller's view with avatar and creation time; a vanished caller ends in a 500 |
| Text.TrimSlice | Backend/utils/validator.js:18 | `trim` returns a slice of the input with only white space cut from either end, and starts and ends with a non-space |
| Text.TrimEmpty | Backend/utils/validator.js:18 | a string trims to "" exactly when it is all white space |
| Text.TrimIdempotent | Backend/Controllers/propertyController.js:8 | trimming twice is trimming once |
| Text.ToLower | Backend/Controllers/propertyController.js:13 | `toLowerCase` keeps the length and lower-cases each character |
| Text.ToLowerIsLower | Backend/Controllers/propertyController.js:13 | the result is lower case, lower-case text is unchanged, and no white space is introduced |
| Text.ToLowerTrimCommute | Backend/Controllers/propertyController.js:8 | lower-casing and trimming may be done in either order |
| Text.DashRuns | Backend/Controllers/propertyController.js:8 | `replace(/[\s_]+/g, "-")` leaves no white space or underscore |
| Text.DashRunsLower | Backend/Controllers/propertyController.js:8 | replacing separator runs keeps lower-case text lower case |
| Text.DashRunsKeepsLetters | Backend/Controllers/propertyController.js:8 | replacing separator runs keeps the other characters, in order |
| Text.DashRunsIdentity | Backend/Controllers/propertyController.js:8 | a text without separators is unchanged |
| Text.Split | Backend/middlewares/auth.js:14 | `split` gives at least one part and no part contains the separator |
| Text.JoinSplit | Backend/middlewares/auth.js:14 | joining the parts with the separator gives the text back |
| Text.SplitJoin | Backend/services/razorpayService.js:28 | splitting a join of separator-free parts gives the parts back |
| Text.NatText | Backend/utils/responseHandler.js:3 | the decimal text is digits only, non-empty, with no leading zero except for 0 |
| Text.NatTextLength | Backend/utils/validator.js:7 | the text has k digits exactly when 10^(k-1) <= n < 10^k |
| Text.NatTextLeading | Backend/utils/responseHandler.js:3 | the first digit is d when d·10^k <= n < (d+1)·10^k |
| Text.OrDefault | Backend/Controllers/paymentController.js:8 | `parseInt(s) || d` is the parsed value when it is a non-zero number, else d |
| Text.NatTextParses | Backend/Controllers/paymentController.js:8 | `parseInt` reads the decimal text of a natural number as that number |
| Text.IntTextRoundTrip | Backend/Controllers/paymentController.js:8 | `parseInt` reads back the decimal text of every integer |
| Text.Utf16Length | Backend/utils/validator.js:12 | JavaScript's `length` counts UTF-16 code units: at least the number of characters and at most twice it |
| Text.Utf16LengthConcat | Backend/models/propertyModel.js:19-24 | the code-unit length of a concatenation is the sum of the lengths |
| Text.Utf16LengthBmp | Backend/models/propertyModel.js:19-24 | the code-unit length equals the character count exactly when no character lies outside the Basic Multilingual Plane |
| Collections.SortDesc | Backend/Controllers/paymentController.js:130 | `sort({ createdAt: -1 })` orders by the key, newest first, and is a permutation |
| Collections.Insert | Backend/Controllers/paymentController.js:130 | inserting into a sorted list keeps it sorted and adds exactly one element |
| Collections.Filter | Backend/Controllers/userController.js:118-120 | `filter` keeps only elements that pass, and never grows |
| Collections.FilterMultiplicity | Backend/Controllers/userController.js:118-120 | `filter` keeps every passing element as many times as it occurs and drops every other |
| Collections.FilterMembers | Backend/Controllers/userController.js:118-120 | an element survives exactly when it was there and passes |
| Collections.RemoveAll | Backend/Controllers/userController.js:118-120 | filtering out an id removes every occurrence, keeps every other element, and changes nothing when the id was absent |
| Collections.AppendThenRemove | Backend/Controllers/userController.js:95-120 | pushing an absent id and then filtering it out gives the list back |
| Collections.RemoveAllDistinct | Backend/Controllers/userController.js:118-120 | filtering keeps a duplicate-free list duplicate-free |
| Collections.FirstIndex | Backend/Controllers/paymentController.js:84-89 | `findOne`: the first position that matches, or none exactly when nothing matches |
| ListingApi.ClientFacing | realestate/services/api/listing.api.ts:4-7 | a missing or empty facing is dropped; any other comes back separator-free and lower case |
| ListingApi.ServerKeepsClientFacing | realestate/services/api/listing.api.ts:4-7 | the server's `normalizeFacing` leaves the client's normalised facing unchanged |
| ListingApi.ClientAreaUnit | realestate/services/api/listing.api.ts:9-14 | a missing or empty unit becomes "sqft"; any other is lower case without white space at either end, and "acre" becomes "acres" |
| ListingApi.DefaultUnitNormal | realestate/services/api/listing.api.ts:10 | the default "sqft" is already normal |
| ListingApi.ServerKeepsClientUnit | realestate/services/api/listing.api.ts:9-14 | the server's `normalizeAreaUnit` leaves the client's unit unchanged |
| ListingApi.AmenityNames | realestate/services/api/listing.api.ts:36-41 | each name is shown exactly when its flag is set, and only the four names appear |
| ListingApi.RankValues | realestate/services/api/listing.api.ts:36-41 | the four names have ranks 0 to 3 in display order |
| ListingApi.SortedCons | realestate/services/api/listing.api.ts:36-41 | an optional name put before higher-ranked sorted names keeps the order |
| ListingApi.FourSorted | realestate/services/api/listing.api.ts:36-41 | four optional names of ranks 0 to 3, joined in order, are sorted |
| ListingApi.AmenityNamesOrdered | realestate/services/api/listing.api.ts:36-41 | the shown names come in the fixed order, each at most once |
| ListingApi.AmenityFlagsOf | realestate/services/api/listing.api.ts:97-102 | no record for a missing or empty list; otherwise each flag is set exactly when some name, lower-cased, contains its keyword ("power" or "electricity", "water", "drainage", "boundary" or "wall") |
| ListingApi.LowerNames | realestate/services/api/listing.api.ts:98-101 | the lower-cased display names |
| ListingApi.ElectricityWords | realestate/services/api/listing.api.ts:98-101 | "electricity" contains its keyword and none of the others |
| ListingApi.WaterChars | realestate/services/api/listing.api.ts:98-101 | "water connection" has none of the first letters of the other keywords |
| ListingApi.WaterWords | realestate/services/api/listing.api.ts:98-101 | "water connection" contains "water" and no other keyword |
| ListingApi.DrainageWords | realestate/services/api/listing.api.ts:98-101 | "drainage" contains its keyword and none of the others |
| ListingApi.BoundaryWallWords | realestate/services/api/listing.api.ts:98-101 | "boundary wall" contains "boundary" and none of the other flags' keywords |
| ListingApi.NameKeywords | realestate/services/api/listing.api.ts:98-101 | each display name mentions its own keywords and none of the other flags' |
| ListingApi.MentionsIffShown | realestate/services/api/listing.api.ts:98-101 | when one name alone mentions a keyword pair, the shown names mention it exactly when that name is shown |
| ListingApi.FlagRecovered | realestate/services/api/listing.api.ts:36-41 | each flag is recovered from the names shown for it |
| ListingApi.AmenityRoundTrip | realestate/services/api/listing.api.ts:36-41 | flags shown as names and sent back give the same flags when any is set, and no record when none is |
| ListingApi.ImageUrl | realestate/services/api/listing.api.ts:42 | a kept URL is never empty |
| ListingApi.Urls | realestate/services/api/listing.api.ts:42 | an entry contributes at most one non-empty URL |
| ListingApi.MapImages | realestate/services/api/listing.api.ts:42 | the mapped images are non-empty URLs, never more than the entries |
| ListingApi.MapImagesConcat | realestate/services/api/listing.api.ts:42 | mapping keeps order: it distributes over concatenation |
| ListingApi.MapImagesOfUrls | realestate/services/api/listing.api.ts:42 | images stored as non-empty URL strings come back unchanged, one for one |
| ListingApi.OrElse | realestate/services/api/listing.api.ts:17 | `a || b`: a when present, else b |
| ListingApi.OrEmpty | realestate/services/api/listing.api.ts:18-19 | `a || ''`: a when present, else "" |
| ListingApi.MapProperty | realestate/services/api/listing.api.ts:16-51 | the id is `id || _id`, the seller `sellerId || seller || ''`, the title, description, price, property type, status and facing pass through, each address part is the stored one or empty, the amenities are the shown names, every image is a non-empty URL, no images map to none, missing contact views are 0, a missing unit is "sqft", each coordinate is `latitude ?? lat ?? 0` (`longitude ?? lng ?? 0`), and the timestamps pass through |
| ListingApi.Coalesce | realestate/services/api/listing.api.ts:33-34 | `a ?? b ?? 0`: the first present value, a present 0 included, else 0 |
| ListingApi.LocalUriIgnoresCase | realestate/services/api/listing.api.ts:53 | the scheme test ignores case |
| ListingApi.WebUriNotLocal | realestate/services/api/listing.api.ts:53 | an "https://" address is not a local picture |
| ListingApi.LocalUris | realestate/services/api/listing.api.ts:105 | the uploaded pictures are all local, and there are none exactly when no image is local |
| ListingApi.BuildPayload | realestate/services/api/listing.api.ts:77-103 | the body carries the client-normalised facing and unit, the derived amenity flags, the address parts or "", and title, description and price as given |
| ListingApi.PayloadFields | realestate/services/api/listing.api.ts:109-120 | title and description or "", the price as text or "0", six fields plus one for a facing and one for amenities |
| ListingApi.HasKeyConcat | realestate/services/api/listing.api.ts:108-128 | a joined form has a key exactly when one of its halves does |
| ListingApi.HasKeyConcat4 | realestate/services/api/listing.api.ts:108-128 | a form of four runs has a key exactly when one run does |
| ListingApi.PayloadFieldKeys | realestate/services/api/listing.api.ts:113-120 | a "facing" part exactly when there is a facing, an "amenities" part exactly when there are flags, and no "images" part among the fields |
| ListingApi.PricePartRoundTrip | realestate/services/api/listing.api.ts:112 | the price sent as text reads back as the same number |
| ListingApi.BuildFormData | realestate/services/api/listing.api.ts:108-128 | the form is the payload fields followed by one JPEG part per local URI, in order, named by the clock reading and index |
| ListingApi.CreateListingRequest | realestate/services/api/listing.api.ts:76-137 | multipart exactly when some image is local, with the fields and one part per local picture; otherwise a JSON body of the payload and the images as given |
| AuthApi.NormalizeAvatar | realestate/services/api/auth.api.ts:34-43 | a falsy avatar gives none; a non-empty string is kept; a picture object gives its string `url`, else its string `secure_url`, else none; any other value gives none |
| AuthApi.AvatarField | realestate/services/api/auth.api.ts:49 | a normalised avatar written back into a user is a string, or undefined when there is none |
| AuthApi.NormalizeAvatarIdempotent | realestate/services/api/auth.api.ts:34-43 | normalising a normalised avatar again changes nothing, except that an empty `url` becomes no avatar |
| AuthApi.JsOr | realestate/services/api/auth.api.ts:48 | `a \|\| b` is truthy exactly when either operand is, is one of them, and is `a` when `a` is truthy |
| AuthApi.MapAuthUser | realestate/services/api/auth.api.ts:45-50 | `verified` is `isVerified \|\| verified`, the avatar is normalised, and every other field is copied |
| AuthApi.AsServerUser | realestate/services/api/auth.api.ts:45-50 | a mapped user read back as a server record keeps both verification fields |
| AuthApi.MapAuthUserIdempotent | realestate/services/api/auth.api.ts:45-50 | mapping a mapped user again changes nothing but an empty picture `url` |
| AuthStore.AuthState.constructor | realestate/store/authStore.ts:17-21 | no user, no token, not loading, not signed in |
| AuthStore.AuthState.LoadUser | realestate/store/authStore.ts:23-31 | on success the user is set and signed in; on failure there is no user and not signed in; the token is kept and loading ends |
| AuthStore.AuthState.SignIn | realestate/store/authStore.ts:33-46 | on success user, token and signed-in are set; on failure only loading changes, to false, and the error is rethrown |
| AuthStore.AuthState.Login | realestate/store/authStore.ts:33-47 | as SignIn, for the login call |
| AuthStore.AuthState.Register | realestate/store/authStore.ts:49-63 | as SignIn, for the register call |
| AuthStore.AuthState.Logout | realestate/store/authStore.ts:65-68 | user, token and signed-in are cleared and loading is untouched |
| AuthStore.AuthState.SetRole | realestate/store/authStore.ts:70-74 | only the user's role changes; no user stays no user |
| PaymentStore.PaymentState.constructor | realestate/store/paymentStore.ts:18-21 | not loading, no payments, no current order |
| PaymentStore.PaymentState.CreateOrder | realestate/store/paymentStore.ts:23-33 | on success the order becomes current and is returned; on failure the current order is kept and the error rethrown; payments are untouched and loading ends |
| PaymentStore.PaymentState.VerifyPayment | realestate/store/paymentStore.ts:35-44 | the current order is cleared only on success; a failure is rethrown; loading ends |
| PaymentStore.PaymentState.FetchMyPayments | realestate/store/paymentStore.ts:46-55 | payments are replaced on success and kept on failure, which is rethrown; loading ends |
| ListingStore.WithoutIdMembers | realestate/store/listingStore.ts:139-140 | filtering out an id keeps exactly the entries with another id |
| ListingStore.WithoutId | realestate/store/listingStore.ts:139-140 | no entry with the id remains, every other entry does, and the list does not grow |
| ListingStore.ReplaceById | realestate/store/listingStore.ts:123-124 | same length; entries with the id become the update, the rest are kept in place |
| ListingStore.DeleteAfterUpdate | realestate/store/listingStore.ts:118-148 | deleting after an update that keeps the id leaves the same lists as deleting alone |
| ListingStore.FindById | realestate/store/listingStore.ts:69 | the first entry with the id, or none exactly when no entry has it |
| ListingStore.ToggledSaved | realestate/store/listingStore.ts:74-95 | other ids are untouched; a success flips whether the id is saved; a failure keeps whether it is saved but appends a saved id again |
| ListingStore.SaveThenUnsave | realestate/store/listingStore.ts:74-95 | saving and then unsaving an unsaved id restores the list exactly |
| ListingStore.ToggleKeepsDistinct | realestate/store/listingStore.ts:78-85 | successful toggles keep the saved list free of duplicates |
| ListingStore.FailedUnsaveDuplicates | realestate/store/listingStore.ts:86-93 | a failed unsave leaves the id in the list twice |
| ListingStore.IntendedToggle | realestate/store/listingStore.ts:74-95 | a failure leaves the saved list as it was; a success toggles as written |
| ListingStore.IntendedToggleKeepsDistinct | realestate/store/listingStore.ts:74-95 | with the intended revert every toggle keeps the saved list free of duplicates |
| ListingStore.SavedIdsAsWritten | realestate/store/listingStore.ts:57 | `savedListings.map((l) => l.id)` on the unmapped documents: one entry per document, its own `id` field |
| ListingStore.SavedIdsLost | realestate/store/listingStore.ts:57 | on documents that carry `_id` and no `id`, as the server sends them, no id is ever read as saved |
| ListingStore.SavedIds | realestate/store/listingStore.ts:57 | the intended reading: one entry per document, the id `mapPropertyToListing` gives it |
| ListingStore.SavedIdsKept | realestate/store/listingStore.ts:57 | on the same documents an id reads as saved exactly when some saved document has it as `_id` |
| ListingStore.ListingState.constructor | realestate/store/listingStore.ts:23-29 | empty lists, nothing selected, not loading, no filters |
| ListingStore.ListingState.FetchListings | realestate/store/listingStore.ts:31-40 | the listings are the response, or empty on failure; nothing else but loading changes |
| ListingStore.MyListingsLost | realestate/store/listingStore.ts:45-46 | a listing the fetch returned is not among the stored own listings, which differ from the fetched ones |
| ListingStore.IntendedMyListings | realestate/store/listingStore.ts:42-51 | the intended reading: exactly the fetched listings, or none on failure |
| ListingStore.IntendedMyListingsKept | realestate/store/listingStore.ts:45-46 | with the intended reading every fetched listing is kept |
| ListingStore.ListingState.FetchMyListings | realestate/store/listingStore.ts:42-51 | the own listings end as `MyListingsAsWritten` makes them, empty whatever the response, because the array has no `data` field; nothing else but loading changes |
| ListingStore.ListingState.FetchSavedListings | realestate/store/listingStore.ts:53-62 | the saved ids are the returned documents' ids read as intended (`SavedIds`), or empty on failure; nothing else changes |
| ListingStore.ListingState.SelectListing | realestate/store/listingStore.ts:64-72 | the fetched listing is selected; on failure the first loaded listing with the id, or none |
| ListingStore.ListingState.ToggleSave | realestate/store/listingStore.ts:74-95 | a success removes a saved id or appends an unsaved one; a failure leaves the list as it was (the corrected revert, see Findings); a duplicate-free list stays so; nothing else changes |
| ListingStore.ListingState.AddListing | realestate/store/listingStore.ts:97-116 | on success the new listing is put first in both lists; on failure they are kept and the error rethrown; loading ends |
| ListingStore.ListingState.UpdateListing | realestate/store/listingStore.ts:118-132 | on success entries with the id in both lists, and the selection when it has the id, become the update; on failure only loading changes and the error is rethrown |
| ListingStore.ListingState.DeleteListing | realestate/store/listingStore.ts:134-148 | on success entries with the id leave both lists and a selection with the id is cleared; on failure only loading changes and the error is rethrown |
| ListingStore.ListingState.SetFilters | realestate/store/listingStore.ts:150 | only the filters change |
| AddListing.ToggleAmenity | realestate/app/seller/add-listing.tsx:79-84 | a present amenity is removed entirely and an absent one appended; others are untouched |
| AddListing.ToggleAmenityTwice | realestate/app/seller/add-listing.tsx:79-84 | toggling an absent amenity twice restores the list |
| AddListing.BlankIsEmptyTrim | realestate/app/seller/add-listing.tsx:94 | a field is blank exactly when its trimmed text is empty |
| AddListing.StepFields | realestate/app/seller/add-listing.tsx:91-136 | steps after the second check nothing, and the second checks neither title nor price |
| AddListing.Flagged | realestate/app/seller/add-listing.tsx:86-143 | a checked field is flagged exactly when it is missing, and only checked fields are flagged |
| AddListing.FlaggedAmong | realestate/app/seller/add-listing.tsx:86-143 | the missing fields among a set |
| AddListing.FlaggedAmongAdd | realestate/app/seller/add-listing.tsx:86-143 | checking one more field adds it exactly when it is missing |
| AddListing.CheckField | realestate/app/seller/add-listing.tsx:94-135 | one more check keeps the error map exact: a key per missing checked field, with its message |
| AddListing.ErrorsForEmpty | realestate/app/seller/add-listing.tsx:140 | the error map is empty exactly when no checked field is missing |
| AddListing.UncheckedFields | realestate/app/seller/add-listing.tsx:118-136 | steps 2 and 3 flag nothing, and the city never affects validation |
| AddListing.BlankPriceAccepted | realestate/app/seller/add-listing.tsx:94-110 | a price of only spaces passes while a title of only spaces fails |
| AddListing.CollectErrors | realestate/app/seller/add-listing.tsx:90-136 | the error map has exactly the step's missing fields, each with its message |
| AddListing.Wizard.constructor | realestate/app/seller/add-listing.tsx:58-65 | the first step, the empty form, no errors |
| AddListing.Wizard.ToggleAmenityChoice | realestate/app/seller/add-listing.tsx:79-84 | only the form's amenities change, by ToggleAmenity |
| AddListing.Wizard.ValidateStep | realestate/app/seller/add-listing.tsx:86-143 | the errors are exactly the step's missing fields, and the step is valid exactly when there are none |
| AddListing.Wizard.HandleNext | realestate/app/seller/add-listing.tsx:145-159 | the errors are exactly the messages of the current step's missing fields; the step advances only when valid and before the last, so it stays in 0..3 |
| AddListing.Wizard.Back | realestate/app/seller/add-listing.tsx:209 | the step goes back only when above 0; at 0 the screen is left |

## Left out

- Cryptography is not modelled: the HMAC-SHA256 digest, JWT signing and verification, and bcrypt hashing and comparison are function parameters with no properties assumed.
- The Razorpay order call and the Cloudinary uploads and deletions are network I/O. The order call's outcome, the uploaded images and whether a deletion succeeded are inputs; the deletions are those of a listing's images, of one listing image and of a user's old avatar. When one image of several fails to delete, the others may already be gone from Cloudinary; that external state is not modelled.
- A rejected Cloudinary upload (Backend/Controllers/propertyController.js:26-29, Backend/Controllers/propertyController.js:155-160, Backend/Controllers/userController.js:21) ends in a 500 that writes nothing. Uploads are modelled as succeeding, so that failure path is not modelled.
- Database I/O is not modelled as such. Each MongoDB operation is one atomic step on the `Store.Database` collections, so the race between the unlock short-circuit and the payment write is not modelled, and neither is any other interleaving of concurrent requests.
- The clock is a parameter `now`, and client picture names take their clock readings as parameters.
- The city filter's case-insensitive regular expression is a predicate parameter, and so is whether `new RegExp` accepts the pattern. `Number` on query text is a function parameter.
- `toLowerCase` maps ASCII letters only. Other Unicode case mappings are left out.
- Request bodies are typed records. JSON values of unexpected types, and the JSON parsing of multipart fields, are not modelled.
- Coordinates and prices are integers. `ListingApi.MapProperty` maps the coordinates with `??` as the code does, but the floating-point values the client and MongoDB may hold are left out.
- Mongoose's casting of request values to schema types is not modelled. Documents are typed records. The error handler's treatment of a `CastError` is modelled on the error object alone.
- The `AppError` class (`Backend/utils/AppError.js`) and the `catchAsync` wrapper are not part of this model. `ErrorMiddleware.AppError` assumes the class behaves as its conventional definition does: it keeps the message and status code, sets `status` to "fail" for a 4xx code and "error" otherwise, and sets `isOperational`. A controller's failure is an `Err(ApiError)` result, and failures the code leaves to the runtime, such as a user who vanished between two reads, are the generic 500.
- Server wiring is left out: helmet, CORS, the rate limiter, body parsers, routes and the multer configuration. The buyer-only and seller-only route gates become preconditions on who calls the workflow methods.
- Client networking, the secure token storage and console logging are left out. Every store action takes the outcome of its API call as a parameter.
- ListingStore.ListingState.ToggleSave performs the corrected revert described under Findings. The code as written is `ListingStore.ToggledSaved`.
- ListingStore.ListingState.FetchSavedListings reads each saved document's id as `mapPropertyToListing` would (`id || _id`). The code as written reads `id` alone and loses every saved id; see Findings.
- ListingApi.MapProperty: `bedrooms`, `bathrooms` and `age` pass through unchanged in the code and are not part of the modelled listing.
- ListingApi.MapProperty: the area is the stored `area.value` or 0. The code's further fallback to the `area` field itself, used when that field is a bare number, is not modelled.
- AuthStore.AuthState.SignIn is the body that `login` and `register` share. Both call it after their own API call.
- The wizard's `handleInputChange` and `handleSubmit` and all screen rendering are left out. So are the other client screens, the theme and the type-only files.
- Deleting a listing leaves payments, unlocks and saved ids that refer to it, as the code does. `Populate` drops such ids when saved listings are read back.

## Findings

| source | as written | input that shows it | evidently intended | confidence | as-written member | corrected member |
|---|---|---|---|---|---|---|
| realestate/store/listingStore.ts:57 | `fetchSavedListings` reads `l.id` from documents that `getSavedListings` (realestate/services/api/listing.api.ts:163-166) returns unmapped, and the server sends them with `_id` and no `id` (Backend/Controllers/userController.js:63-72) | a user who saved listing "p1" gets `savedListings = [undefined]` after a fetch, so "p1" shows as not saved | each saved listing's id, `id || _id` | not executed | ListingStore.SavedIdsLost | ListingStore.SavedIdsKept |
| realestate/store/listingStore.ts:45-46 | `fetchMyListings` stores `myListings.data || []`, but `getMyListings` (realestate/services/api/listing.api.ts:155-160) returns the mapped array itself, which has no `data` field | a seller with listing L whose fetch succeeds with [L] gets `myListings = []` | the fetched listings | not executed | ListingStore.MyListingsLost | ListingStore.IntendedMyListingsKept |
| realestate/store/listingStore.ts:86-93 | when an unsave request fails, the "revert" appends the id to the list that still holds it | saved = ["a"], `toggleSave("a")` with the unsave request failing gives ["a", "a"] | a failed request leaves the saved list as it was | not executed | ListingStore.FailedUnsaveDuplicates | ListingStore.IntendedToggleKeepsDistinct |

`ListingStore.ToggledSaved` is the transition as written. `ListingStore.IntendedToggle` is the
corrected one, which `ListingStore.ListingState.ToggleSave` performs.
`ListingStore.IntendedToggleKeepsDistinct` proves that the corrected transition never puts a
duplicate into the saved list.

`ListingStore.SavedIdsAsWritten` is the saved-id reading as written and `ListingStore.SavedIds` the
intended one, which `ListingStore.ListingState.FetchSavedListings` performs.

`ListingStore.MyListingsAsWritten` is the own-listings reading as written and
`ListingStore.IntendedMyListings` the intended one. `ListingStore.ListingState.FetchMyListings`
keeps the code as written, so the store's own listings stay empty after every fetch.
