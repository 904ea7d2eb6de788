# Partz Finda: a verified model of the client-side logic

Partz Finda is a prototype app that connects mechanics with auto-parts
suppliers. Most of it is presentational screens and generated backend
bindings. This Dafny project models the parts that have precise
behaviour, one module per source file:

- `MechanicDashboard` (`mechanic_dashboard.dfy`): the request list, the
  all / pending / active / completed tab filter, the three status
  counters, and the tab state with its "View all requests" link.
- `PartRequestCard` (`part_request_card.dfy`): the status badge lookups
  (colour class, label, icon) and the pending-only Accept / Decline
  buttons, and the per-prop defaults. Statuses are strings rather than
  the declared four-value union, because the callers pass statuses of
  their own. The model can therefore show which of those the card does
  not know.
- `AuthChoice` (`auth_choice.dfy`): the role picker and the sign-in /
  registration form as a state machine. The `onRoleSelect` and
  `onAuthenticate` callbacks and `router.push` become emitted effects.
- `AppSession` (`app_session.dfy`): the root's `isAuthenticated` /
  `userType` state, its two handlers, and which screen is rendered.
- `SupplierChat` (`supplier_chat.dfy`) and `NaturalLanguageRequest`
  (`natural_language_request.dfy`): the send reducers. Each delayed
  reply timer is a separate event.
- `DataConnect` (`data_connect.dfy`), `BuilderBlock`
  (`builder_block.dfy`), `InsertPartRequestMutation`
  (`insert_part_request.dfy`) and `CreateShopProfileMutation`
  (`create_shop_profile.dfy`): the generated Kotlin `Variables.build`
  builders with their three-state optional fields. The states are
  omitted (`Undefined`), explicit null (`Value(None)`) and a value.
  The builder block is modelled as the sequence of property writes and
  reads it makes. The code generator emits the same builder for every
  mutation, so `BuilderBlock` states it once, generically. Each mutation
  module supplies its fields and setters.
- `Text` (`text.dfy`): JavaScript's `String.prototype.trim`. It strips
  ECMAScript white space and line terminators from both ends. `Wrappers`
  (`wrappers.dfy`) holds `Option` and `Result`.

Observations about the code:

- In `InsertPartRequestMutation.kt`, `partDescription` is a required
  `build` argument; only `VIN` and `urgency` are optional. Nothing in
  either builder checks that required strings are non-empty.

- `app/index.tsx` passes `onSignOut` to both dashboards. Neither
  dashboard declares or calls that prop, so sign-out cannot be reached
  from the UI. `AppSession.HandleSignOut` models the handler as written.
- `MechanicDashboard` passes its own statuses to `PartRequestCard`, and
  so does the supplier dashboard. Several of these statuses are not in
  the card's four-status domain: `quoted`, `confirmed`, `delivered`
  and `accepted`. For those the card's colour and label lookups return
  `undefined`. The lemmas `PartRequestCard.MechanicStatusesOutsideCardDomain`
  and `PartRequestCard.SupplierStatusesOutsideCardDomain` state this. The
  code gives no intended label for those statuses, so the model does not
  choose one.

## Model

| member | source | states |
|---|---|---|
| MechanicDashboard.FilteredRequests | components/mechanic/MechanicDashboard.tsx:93-100 | a request is in a tab's list iff it is in the input and the tab keeps its status; the list is an order-preserving subsequence of the input and no longer than it |
| MechanicDashboard.FilteredKeepsMultiplicity | components/mechanic/MechanicDashboard.tsx:93-100 | a request the tab shows appears in the list exactly as often as in the input, and any other request not at all |
| MechanicDashboard.AllTabIsIdentity | components/mechanic/MechanicDashboard.tsx:93-94 | the "all" tab returns the list unchanged: same elements, same order |
| MechanicDashboard.CountByStatus | components/mechanic/MechanicDashboard.tsx:103-111 | pending + active + completed counts add up to the number of requests, because every one of the five statuses falls in exactly one group |
| MechanicDashboard.CountsMatchTabs | components/mechanic/MechanicDashboard.tsx:95-111 | each counter equals the length of the corresponding tab's filtered list |
| MechanicDashboard.TabsPartitionRequests | components/mechanic/MechanicDashboard.tsx:95-98 | the pending, active and completed lists together are exactly as long as the whole list |
| MechanicDashboard.TabsDisjoint | components/mechanic/MechanicDashboard.tsx:95-98 | every request appears in exactly one of the pending, active and completed lists |
| MechanicDashboard.Initial | components/mechanic/MechanicDashboard.tsx:88-90 | the screen opens on the "all" tab, which shows every request |
| MechanicDashboard.Step | components/mechanic/MechanicDashboard.tsx:186-222 | pressing a tab selects it; "View all requests" resets to "all" only when it is on screen (empty list, tab not "all") and otherwise changes nothing |
| MechanicDashboard.ViewAllRestoresList | components/mechanic/MechanicDashboard.tsx:214-222 | after following the link the whole list is shown and the link is gone |
| MechanicDashboard.ViewAllOffered | components/mechanic/MechanicDashboard.tsx:204-222 | the "View all requests" link is on screen iff the selected tab is not "all" and no request has a status that tab shows |
| MechanicDashboard.FilteredEmptyIff | components/mechanic/MechanicDashboard.tsx:93-100 | a tab's list is empty iff no request in the input has a status the tab shows |
| PartRequestCard.ColorClass | components/parts/PartRequestCard.tsx:32-37 | a colour class exists exactly for pending, approved, declined and shipped |
| PartRequestCard.ColorsDistinct | components/parts/PartRequestCard.tsx:32-37 | the four card statuses have four different colours |
| PartRequestCard.Label | components/parts/PartRequestCard.tsx:40-45 | a label exists exactly for the four card statuses, and it is the status name capitalised |
| PartRequestCard.StatusIcon | components/parts/PartRequestCard.tsx:48-58 | CheckCircle for approved and shipped, AlertCircle for declined, Clock for every other string |
| PartRequestCard.Render | components/parts/PartRequestCard.tsx:21-115 | each prop left undefined takes its own default and a given prop is shown as given; the badge colour, badge text and icon are the colour, label and icon lookups of the effective status (the default "pending" when undefined); Accept / Decline are offered iff that status is "pending" |
| PartRequestCard.DefaultCardOffersActions | components/parts/PartRequestCard.tsx:21-30 | a card given no props is a yellow "Pending" "Brake Pads" card offering Accept / Decline |
| PartRequestCard.MechanicCardsShowDefaults | components/mechanic/MechanicDashboard.tsx:205-212 | every card on the mechanic's dashboard shows the default part number; a request without a supplier shows the default supplier name, otherwise the supplier's name |
| PartRequestCard.SupplierCardsShowDefaults | components/supplier/SupplierDashboard.tsx:247-253 | every card on the supplier's dashboard names the default supplier and shows the default part number; it offers Accept / Decline iff the status is "pending" |
| PartRequestCard.MechanicStatusesOutsideCardDomain | components/mechanic/MechanicDashboard.tsx:205-212 | of the dashboard's five statuses only pending and shipped get a label and colour on the card |
| PartRequestCard.SupplierStatusesOutsideCardDomain | components/supplier/SupplierDashboard.tsx:247-251 | "quoted" and "accepted" get no label and no colour on the card |
| PartRequestCard.StatusName | components/mechanic/MechanicDashboard.tsx:18 | the mechanic's request statuses are passed to the card as one of the five lower-case names |
| PartRequestCard.StatusNamesDistinct | components/mechanic/MechanicDashboard.tsx:18 | different request statuses are passed under different names |
| PartRequestCard.MechanicCardProps | components/mechanic/MechanicDashboard.tsx:206-212 | the mechanic's dashboard gives each card the request's part name, date and status name, never a part number, and the supplier's name iff the request has a supplier |
| PartRequestCard.SupplierCardProps | components/supplier/SupplierDashboard.tsx:247-253 | the supplier's dashboard gives each card part name, date and status, and neither a part number nor a supplier name |
| AuthChoice.Initial | components/auth/AuthChoice.tsx:36-43 | no role selected, sign-in form, empty email, password and name, password hidden |
| AuthChoice.DashboardRoute | components/auth/AuthChoice.tsx:61-65 | the mechanic role goes to /mechanic/dashboard and the supplier role to /supplier/dashboard |
| AuthChoice.HandleRoleSelect | components/auth/AuthChoice.tsx:47-50 | the role is stored, nothing else changes, and the role is reported once |
| AuthChoice.CredentialsOf | components/auth/AuthChoice.tsx:55-56 | credentials carry the form's email and password, and carry the name iff registering |
| AuthChoice.HandleSubmit | components/auth/AuthChoice.tsx:52-66 | without a role no effect and no state change; with one, an authenticate call with that role, the form kind, the typed email and password and, when registering only, the typed name, then navigation to the role's route |
| AuthChoice.ToggleAuthType | components/auth/AuthChoice.tsx:68-70 | the form kind flips and every other field is kept |
| AuthChoice.ToggleAuthTypeInvolution | components/auth/AuthChoice.tsx:68-70 | toggling the form kind twice is the identity |
| AuthChoice.TogglePasswordVisibility | components/auth/AuthChoice.tsx:176-178 | password visibility flips and every other field is kept |
| AuthChoice.TogglePasswordInvolution | components/auth/AuthChoice.tsx:176-178 | toggling visibility twice is the identity |
| AuthChoice.GoBack | components/auth/AuthChoice.tsx:208-211 | the role is cleared and every other field, the typed form included, is unchanged |
| AuthChoice.EditField | components/auth/AuthChoice.tsx:140-174 | typing into a field replaces exactly that field |
| AuthChoice.Step | components/auth/AuthChoice.tsx:90-213 | only a role press or go-back changes the selected role |
| AuthChoice.RunSelectsLastRole | components/auth/AuthChoice.tsx:47-53 | after any events the role is the one left by the last role press or go-back, so a submit authenticates iff that was a role press |
| AppSession.Initial | app/index.tsx:21-24 | unauthenticated with no user type, which satisfies the invariant |
| AppSession.HandleAuthentication | app/index.tsx:27-30 | authenticated with the given role as user type |
| AppSession.HandleSignOut | app/index.tsx:33-36 | returns exactly to the initial state |
| AppSession.Render | app/index.tsx:45-85 | nothing before fonts load; the sign-in screen iff unauthenticated; otherwise, under the invariant, exactly one dashboard, the mechanic one iff the user type is mechanic |
| AppSession.RunPreservesValid | app/index.tsx:21-36 | every event sequence keeps isAuthenticated iff userType is set, so once fonts load the sign-in screen or exactly one dashboard is shown |
| AppSession.SubmitShowsMatchingDashboard | app/index.tsx:72-83 | the dashboard shown after a submitted sign-in is the one the form navigates to |
| SupplierChat.Initial | components/mechanic/SupplierChat.tsx:26-50 | three opening messages: supplier, mechanic, supplier; empty input; the greeting names the part request, or the default one when the prop is undefined |
| SupplierChat.SendEnabled | components/mechanic/SupplierChat.tsx:186 | the send button is enabled iff the input holds a character that is not white space |
| SupplierChat.HandleSendMessage | components/mechanic/SupplierChat.tsx:52-85 | blank input changes nothing; otherwise exactly one trimmed mechanic message is appended after all earlier ones, the input is cleared and one reply is scheduled; the state changes iff the send button is enabled |
| SupplierChat.DeliverReply | components/mechanic/SupplierChat.tsx:64-81 | the reply timer appends exactly one supplier message, the canned response drawn, and keeps the earlier messages |
| SupplierChat.InitialReachable | components/mechanic/SupplierChat.tsx:31-50 | the opening conversation satisfies the chat invariant |
| SupplierChat.StepPreservesReachable | components/mechanic/SupplierChat.tsx:52-85 | every event keeps the invariant: the opening kept, later supplier messages canned, each mechanic message answered or awaiting its reply |
| NaturalLanguageRequest.Initial | components/mechanic/NaturalLanguageRequest.tsx:29-36 | the single non-user welcome message, empty input and nothing pending |
| NaturalLanguageRequest.SendEnabled | components/mechanic/NaturalLanguageRequest.tsx:141 | the send button is enabled iff the input holds a character that is not white space |
| NaturalLanguageRequest.HandleSendMessage | components/mechanic/NaturalLanguageRequest.tsx:38-67 | blank input is a no-op; otherwise one user message with the trimmed text is appended, the input is cleared, and the acknowledgement is scheduled for that text |
| NaturalLanguageRequest.AcknowledgeTimer | components/mechanic/NaturalLanguageRequest.tsx:50-57 | appends one non-user acknowledgement and schedules the callback for the oldest waiting text |
| NaturalLanguageRequest.CallbackTimer | components/mechanic/NaturalLanguageRequest.tsx:59-62 | the callback receives the oldest acknowledged text |
| NaturalLanguageRequest.StepKeepsAccounted | components/mechanic/NaturalLanguageRequest.tsx:38-66 | every event keeps the user messages equal to the submitted texts, then those awaiting the callback, then those awaiting acknowledgement |
| NaturalLanguageRequest.RunKeepsAccounted | components/mechanic/NaturalLanguageRequest.tsx:38-66 | the same over any sequence of events |
| NaturalLanguageRequest.SubmittedAreUserMessages | components/mechanic/NaturalLanguageRequest.tsx:40-62 | from the opening screen, the texts given to onRequestSubmitted are, in order, a prefix of the user messages' trimmed texts |
| Text.Trim | components/mechanic/SupplierChat.tsx:53-56 | the result neither starts nor ends with white space, and is empty iff the input is all white space |
| Text.TrimIsInfix | components/mechanic/NaturalLanguageRequest.tsx:39-42 | the trimmed text is an infix of the input with only white space cut from both ends |
| Text.TrimIdempotent | components/mechanic/SupplierChat.tsx:53-56 | trimming an already trimmed text changes nothing: the text a send stores is in trimmed form |
| DataConnect.Provide | android/app/src/main/kotlin/com/google/firebase/dataconnect/generated/InsertPartRequestMutation.kt:75-85 | an assigned optional, null included, is never Undefined and holds exactly what was assigned |
| BuilderBlock.RunBlock | android/app/src/main/kotlin/com/google/firebase/dataconnect/generated/InsertPartRequestMutation.kt:70-100 | a block fails iff it calls a getter, and then with the getter's UnsupportedOperationException message |
| BuilderBlock.LastWrite | android/app/src/main/kotlin/com/google/firebase/dataconnect/generated/InsertPartRequestMutation.kt:70-98 | the reference for a built field: the last setter call on it, present iff the block writes it |
| BuilderBlock.RunBlockAppend | android/app/src/main/kotlin/com/google/firebase/dataconnect/generated/InsertPartRequestMutation.kt:70-100 | running a block in two parts is running it whole; a getter in the first part skips the second |
| BuilderBlock.ReplaceInBlock | android/app/src/main/kotlin/com/google/firebase/dataconnect/generated/InsertPartRequestMutation.kt:70-100 | two pieces of block with the same effect from every state can replace each other anywhere in a block |
| BuilderBlock.BuiltIsLastWrite | android/app/src/main/kotlin/com/google/firebase/dataconnect/generated/InsertPartRequestMutation.kt:59-104 | for any setters that write only their own property, a block without getters leaves each property at its last written value, or at its starting value if never written |
| InsertPartRequestMutation.Initial | android/app/src/main/kotlin/com/google/firebase/dataconnect/generated/InsertPartRequestMutation.kt:59-67 | before the block runs VIN and urgency are Undefined and the five required fields are the arguments |
| InsertPartRequestMutation.Assign | android/app/src/main/kotlin/com/google/firebase/dataconnect/generated/InsertPartRequestMutation.kt:70-98 | a setter writes its own field and leaves every other field alone |
| InsertPartRequestMutation.Build | android/app/src/main/kotlin/com/google/firebase/dataconnect/generated/InsertPartRequestMutation.kt:55-106 | build throws UnsupportedOperationException iff the block reads a builder property |
| InsertPartRequestMutation.EmptyBlockOmitsOptionals | android/app/src/main/kotlin/com/google/firebase/dataconnect/generated/InsertPartRequestMutation.kt:59-67 | an empty block yields Undefined VIN and urgency and the arguments as required fields |
| InsertPartRequestMutation.BuiltFieldIsLastWrite | android/app/src/main/kotlin/com/google/firebase/dataconnect/generated/InsertPartRequestMutation.kt:59-104 | every built field holds the block's last write to it, or the argument or Undefined it started with |
| InsertPartRequestMutation.OptionalsAreLastWrites | android/app/src/main/kotlin/com/google/firebase/dataconnect/generated/InsertPartRequestMutation.kt:60-85 | the built VIN and urgency are Value(x) for the last x the block assigns them, null included, and Undefined when it never assigns them |
| InsertPartRequestMutation.AssignedFieldsOnly | android/app/src/main/kotlin/com/google/firebase/dataconnect/generated/InsertPartRequestMutation.kt:59-104 | VIN and urgency are Value iff the block assigns them; a field the block never assigns keeps its starting value |
| InsertPartRequestMutation.AssignOverwrites | android/app/src/main/kotlin/com/google/firebase/dataconnect/generated/InsertPartRequestMutation.kt:71-97 | a second write to a field replaces the first |
| InsertPartRequestMutation.AssignCommutes | android/app/src/main/kotlin/com/google/firebase/dataconnect/generated/InsertPartRequestMutation.kt:71-97 | writes to different fields commute |
| InsertPartRequestMutation.LastWriteWins | android/app/src/main/kotlin/com/google/firebase/dataconnect/generated/InsertPartRequestMutation.kt:71-97 | anywhere in a block, two writes to the same field build what the second alone builds |
| InsertPartRequestMutation.DistinctFieldsCommute | android/app/src/main/kotlin/com/google/firebase/dataconnect/generated/InsertPartRequestMutation.kt:71-97 | anywhere in a block, adjacent writes to different fields can be swapped |
| InsertPartRequestMutation.NullIsExplicit | android/app/src/main/kotlin/com/google/firebase/dataconnect/generated/InsertPartRequestMutation.kt:75-85 | assigning null gives Value(null), which differs from the omitted Undefined |
| InsertPartRequestMutation.Ref | android/app/src/main/kotlin/com/google/firebase/dataconnect/generated/InsertPartRequestMutation.kt:124-152 | ref names the operation "InsertPartRequest" and carries the variables build makes from the same arguments and block |
| InsertPartRequestMutation.DefaultRefOmitsOptionals | android/app/src/main/kotlin/com/google/firebase/dataconnect/generated/InsertPartRequestMutation.kt:134-152 | ref with the default empty block succeeds with both optionals Undefined |
| CreateShopProfileMutation.Initial | android/app/src/main/kotlin/com/google/firebase/dataconnect/generated/CreateShopProfileMutation.kt:55-61 | before the block runs both lists are Undefined and userId, primaryContactPerson and shopName are the arguments |
| CreateShopProfileMutation.Assign | android/app/src/main/kotlin/com/google/firebase/dataconnect/generated/CreateShopProfileMutation.kt:64-84 | a setter writes its own field and leaves every other field alone |
| CreateShopProfileMutation.Build | android/app/src/main/kotlin/com/google/firebase/dataconnect/generated/CreateShopProfileMutation.kt:51-92 | build throws UnsupportedOperationException iff the block reads a builder property |
| CreateShopProfileMutation.EmptyBlockOmitsOptionals | android/app/src/main/kotlin/com/google/firebase/dataconnect/generated/CreateShopProfileMutation.kt:55-61 | an empty block yields Undefined deliveryOptions and inventorySpecialties |
| CreateShopProfileMutation.AssignedFieldsOnly | android/app/src/main/kotlin/com/google/firebase/dataconnect/generated/CreateShopProfileMutation.kt:55-90 | each list is Value iff the block assigns it; a field the block never assigns keeps its starting value |
| CreateShopProfileMutation.BuiltFieldIsLastWrite | android/app/src/main/kotlin/com/google/firebase/dataconnect/generated/CreateShopProfileMutation.kt:55-90 | every built field holds the block's last write to it, or the argument or Undefined it started with |
| CreateShopProfileMutation.OptionalsAreLastWrites | android/app/src/main/kotlin/com/google/firebase/dataconnect/generated/CreateShopProfileMutation.kt:56-75 | the built lists are Value(x) for the last list x the block assigns them, null included, and Undefined when it never assigns them |
| CreateShopProfileMutation.AssignOverwrites | android/app/src/main/kotlin/com/google/firebase/dataconnect/generated/CreateShopProfileMutation.kt:65-83 | a second write to a field replaces the first |
| CreateShopProfileMutation.AssignCommutes | android/app/src/main/kotlin/com/google/firebase/dataconnect/generated/CreateShopProfileMutation.kt:65-83 | writes to different fields commute |
| CreateShopProfileMutation.LastWriteWins | android/app/src/main/kotlin/com/google/firebase/dataconnect/generated/CreateShopProfileMutation.kt:65-83 | anywhere in a block, two writes to the same field build what the second alone builds |
| CreateShopProfileMutation.DistinctFieldsCommute | android/app/src/main/kotlin/com/google/firebase/dataconnect/generated/CreateShopProfileMutation.kt:65-83 | anywhere in a block, adjacent writes to different fields can be swapped |
| CreateShopProfileMutation.NullIsExplicit | android/app/src/main/kotlin/com/google/firebase/dataconnect/generated/CreateShopProfileMutation.kt:69-75 | assigning a null list gives Value(null), which differs from the omitted Undefined |
| CreateShopProfileMutation.Ref | android/app/src/main/kotlin/com/google/firebase/dataconnect/generated/CreateShopProfileMutation.kt:110-138 | ref names the operation "CreateShopProfile" and carries the variables build makes from the same arguments and block |
| CreateShopProfileMutation.DefaultRefOmitsOptionals | android/app/src/main/kotlin/com/google/firebase/dataconnect/generated/CreateShopProfileMutation.kt:120-138 | ref with the default empty block succeeds with both lists Undefined |

## Left out

- Rendering is left out: layout, styling, icon colours beyond the badge
  icon, the empty-list caption text and the keyboard behaviour. Screens
  are reduced to the values they show.
- Message ids and timestamps come from `Date.now()` and `new Date()`,
  and `toLocaleTimeString` only formats them. Messages keep only text
  and sender.
- Timers (`setTimeout`) are not modelled as timers. Each firing is an
  event that may happen only once its timer is set. Timers of equal
  delay are taken to fire in the order they were set.
- `Math.random` is the `pick` argument of `SupplierChat.DeliverReply`.
- The dashboards' other callbacks (`onCreateRequest`, `onSearchParts`,
  `onViewSuppliers`, `onViewNotifications`, `onViewSettings`) and
  `userName` only log or display, so they are left out.
- `AuthChoice.Step` lets any event happen in any state. The UI only
  shows the role buttons before a role is chosen and the form after.
  Every handler is modelled as written, without that visibility guard.
- Font loading is the `fontsLoaded` input of `AppSession.Render`. The
  splash-screen effect and the colour scheme are left out.
- `SupplierDashboard.tsx` is left out except for the props it passes to
  the card. Its statistics are hard-coded mock values.
- `execute` is `ref(...).execute()`. Its network round trip, the
  result's `Data` key and all serialisation are backend work, so only
  the `MutationRef` that `ref` builds is modelled.
- `ExampleConnector.kt`, the two query bindings and the JavaScript
  `src/dataconnect-generated` wrappers are library plumbing with no
  local logic.
- The Kotlin builder block may run arbitrary code. Only its property
  writes and reads are modelled. Its own exceptions and non-termination
  are not.
- InsertPartRequestMutation.Build: the model lets the first getter call
  end the block with the getter's exception. A block that catches that
  `UnsupportedOperationException` and carries on still builds in Kotlin,
  so "fails iff the block reads a property" holds only for blocks that
  do not catch it. The same applies to `CreateShopProfileMutation.Build`
  and `BuilderBlock.RunBlock`.
- CreateShopProfileMutation.OptionalsAreLastWrites: the list setters
  store a reference to the caller's `List<String>`. A mutable list that
  the caller changes after assigning it is built and sent with its new
  contents. The model treats lists as immutable values, so it promises
  the assigned contents only for lists nobody changes afterwards.
- PartRequestCard.ColorClass: `statusColors` and `statusText` are plain
  object literals. Keys inherited from `Object.prototype`, such as
  `toString`, `constructor` and `__proto__`, are found by the lookup.
  The model treats them as missing and returns `None`, which is also
  the answer `PartRequestCard.Label` gives. No caller passes such a
  status.
- `java.util.UUID` is two 64-bit halves, with no version or variant
  structure.
