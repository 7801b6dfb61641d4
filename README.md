# Admin console model

A Dafny model of the operator console of a pickup-meal marketplace: the
list pages for stores, store settings, customers, orders, settlements,
reviews and reports; the marketing pages for banners, coupons and push
notifications; the status-card row shared by the store settings and
settlement pages; and the side menu's choice of highlighted entry.

Every page follows one pattern, and the model follows it too. There is
draft input state, which the user types or picks. There is applied state,
which a search button, an Enter key press or a search box copies from the
drafts. The table is the record list filtered by the applied state. The
filtering itself is one generic engine (`Filtering`). A page lists its
conditions as clauses: a free-text search over several fields, a substring
condition, an exact match with the sentinel 전체 ("all"), a nullable
selection, or an arbitrary test. Each page then proves three things about
its filtered list:

- membership is exactly "in the input and meets every condition";
- it keeps the input order (it is a subsequence);
- with default conditions it is the whole input.

Every page is a `class` whose fields are the page's state variables. Each
method is one event handler. Its contract gives the whole new state, and
for draft edits it gives that the visible table does not change.

Module by module:

- `Types`: the records and the status unions. Each status string is a
  datatype with a `Label()`, and the labels are proved injective.
- `Text`: `startsWith` and `includes` on strings.
- `Filtering`: the clause engine. It also defines `Subsequence`.
- `Stores`, `StoreSettings`, `Customers`, `Orders`, `Reviews`, `Reports`,
  `Settlements`: the list pages. Each has its filter, its action buttons and
  the page class. The detail dialogs' button sets are modelled as
  functions. Where a page has a structured computation, it is modelled too:
  - the phone mask of the review list;
  - the manner-score colour bands of the customer list;
  - the batch settlement total and the de-duplicated store-name options of
    the settlement page.
- `StatusCards`: the card row, its highlighting and its click value.
- `Banners`: the list sorted by display order (an insertion sort proved
  sorted, a permutation and stable), the up and down moves (an exchange of
  two `order` values on a copied array, then an in-place sort), deletion,
  and the add and edit submissions.
- `Coupons`: the coupon filter, the customer picker, issuing, extending and
  deleting coupons, the action buttons, and the statistics with how each
  operation changes them.
- `Push`: the notification filter, the target pickers, the target-count
  `switch`, cancelling, the success-rate cell, and the statistics with the
  average success rate.
- `Navigation`: the menu entries and `getSelectedKey`.

Clocks, `Date.now()` identifiers and generated coupon codes are parameters
of the operations that use them. The lower-casing that the free-text
searches apply (`toLowerCase`) is a function parameter `fold`: the model
assumes nothing about it, so every search lemma holds for any case
folding.

Where the code and the design notes disagree, the model follows the code:

- The banner page's deletion does not renumber the remaining banners'
  display order (`Banners.DeleteCanLeaveGap`).
- The push page's "all customers" audience size is the customer count
  times 100, a stand-in constant (`Push.EveryCustomerFactor`).
- The review dialog's delete button is shown with no review selected,
  because `undefined !== '삭제'` holds (`Reviews.ReviewActions`).
- The store settings page lists stores of every status, not only approved
  ones (`StoreSettings.StatusCardSelectsThatStatus`).
- The store settings page's period picker and the order page's
  date-range picker feed no condition.

## Model

| member | source | states |
|---|---|---|
| Types.LabelsAreInjective | src/types/index.ts:2-85 | Two statuses of any of the eleven status unions with the same display string are the same status, so comparing labels compares statuses |
| Types.CancellationStatuses | src/types/index.ts:18 | An order status is a cancellation exactly when its label is one of 유저취소, 가게취소 and 관리자취소 |
| Stores.StoreSearchMeaning | src/app/stores/page.tsx:34-44 | The free-text clause holds exactly when the query is empty, or the folded query occurs in the folded name, region, category, owner name or address, or the raw query occurs in the owner phone |
| Stores.AbsentOwnerFieldsNeverMatch | src/app/stores/page.tsx:38-43 | A store with no owner name, phone or address matches a query only through name, region or category: the optional chaining makes an absent field match nothing |
| Stores.OperatingStores | src/app/stores/page.tsx:15 | The operating list is exactly the approved (심사완료) stores, in list order, and is the whole list when every store is approved |
| Stores.FilteredStores | src/app/stores/page.tsx:31-50 | The table holds exactly the approved stores meeting the query, the name substring and the region (or 전체), in list order; with default conditions it is the operating list |
| Stores.OnlyApprovedListed | src/app/stores/page.tsx:15-50 | Whatever the conditions, only approved stores are listed, and never more than the operating list |
| Stores.NameConditionIsCaseSensitive | src/app/stores/page.tsx:46 | The name condition does not fold case: the needle "cafe" rejects a store named "Cafe" |
| Stores.StoresPage.constructor | src/app/stores/page.tsx:21-28 | All inputs start empty or 전체, and the table starts as the operating list |
| Stores.StoresPage.SetNlSearch | src/app/stores/page.tsx:130 | Typing in the search box changes only the draft; the table is unchanged |
| Stores.StoresPage.NlSearch | src/app/stores/page.tsx:52-54 | Searching makes the value the active query and leaves the detail conditions; the table becomes the filter under the new query |
| Stores.StoresPage.SetNameFilter | src/app/stores/page.tsx:143 | Editing the name draft changes nothing else, and the table is unchanged |
| Stores.StoresPage.SetRegionFilter | src/app/stores/page.tsx:149 | Choosing a region draft changes nothing else, and the table is unchanged |
| Stores.StoresPage.Search | src/app/stores/page.tsx:56-59 | The name and region drafts become the applied conditions; the query is kept, and the table is the filter under the drafts |
| Stores.StoresPage.KeyPress | src/app/stores/page.tsx:61-65 | Enter applies the drafts; any other key leaves the applied conditions |
| StoreSettings.FilteredSettings | src/app/stores/settings/page.tsx:34-54 | The table holds exactly the stores, of any status, meeting the query, the selected status (none or "" selects all) and the region, in list order; with nothing set it is every store |
| StoreSettings.StatusCardSelectsThatStatus | src/app/stores/settings/page.tsx:49 | After a click on a status card, with no query and region 전체, the table holds exactly the stores with that status |
| StoreSettings.SettingsExtendsOperating | src/app/stores/settings/page.tsx:37-51 | With no status selected, every store the store list shows is shown here, and every approved store shown here is on the store list |
| StoreSettings.StoreSettingsPage.constructor | src/app/stores/settings/page.tsx:21-31 | Inputs start empty, 전체 or 전체 기간 with no status selected, and the table starts as every store |
| StoreSettings.StoreSettingsPage.NlSearch | src/app/stores/settings/page.tsx:58-60 | The searched value becomes the active query and nothing else changes |
| StoreSettings.StoreSettingsPage.SetRegionFilter | src/app/stores/settings/page.tsx:136 | Choosing a region draft leaves the table unchanged |
| StoreSettings.StoreSettingsPage.SetPeriodFilter | src/app/stores/settings/page.tsx:143 | The period draft feeds no condition: changing it never changes the table |
| StoreSettings.StoreSettingsPage.Search | src/app/stores/settings/page.tsx:62-64 | Only the region draft is applied; the period draft is ignored |
| StoreSettings.StoreSettingsPage.ClickCard | src/app/stores/settings/page.tsx:159-163 | A card click selects that status, or none for 전체, after which that card is highlighted; the other state is kept |
| StatusCards.Lookup | src/components/common/StatusCards.tsx:67-84 | A count is present exactly when the counts record has the key, and is then the record's value |
| StatusCards.ClickValue | src/components/common/StatusCards.tsx:41 | A click on 전체 selects nothing, and a click on any other card selects its own label |
| StatusCards.ClickHighlightsClicked | src/components/common/StatusCards.tsx:30-41 | After a click the clicked card is highlighted, and a label is highlighted exactly when it is the clicked one |
| StatusCards.AtMostOneHighlighted | src/components/common/StatusCards.tsx:30-38 | In a row with distinct labels, whatever the selection, at most one card is highlighted |
| StatusCards.ClickHighlightsExactlyOne | src/components/common/StatusCards.tsx:30-41 | Clicking a card of a row with distinct labels highlights that card and no other |
| StatusCards.CardsFor | src/components/common/StatusCards.tsx:65-86 | A card row is 전체 with the total count, then one card per label in order with that label's count |
| StatusCards.CardsRenderIff | src/components/common/StatusCards.tsx:56 | A card row renders exactly when the counts record holds `total` and every label of the row; otherwise formatting an absent count throws |
| StatusCards.StoreStatusCards | src/components/common/StatusCards.tsx:65-75 | The store row has six cards: 전체 with the total, then the five store statuses in order with their counts |
| StatusCards.SettlementStatusCards | src/components/common/StatusCards.tsx:77-86 | The settlement row has five cards: 전체 with the total, then the four settlement statuses in order with their counts |
| StatusCards.StoreCardsRender | src/components/common/StatusCards.tsx:65-75 | The store row renders exactly when the record holds `total` and the five store statuses |
| StatusCards.SettlementCardsRender | src/components/common/StatusCards.tsx:77-86 | The settlement row renders exactly when the record holds `total` and the four settlement statuses |
| StatusCards.StoreCardsDistinct | src/components/common/StatusCards.tsx:65-75 | The store row's labels are pairwise different |
| StatusCards.SettlementCardsDistinct | src/components/common/StatusCards.tsx:77-86 | The settlement row's labels are pairwise different |
| StatusCards.CardsCoverStatuses | src/components/common/StatusCards.tsx:65-86 | The store cards after 전체 are exactly the store status labels, and every settlement status has a card |
| StatusCards.NothingSelectedHighlightsAll | src/components/common/StatusCards.tsx:30-41 | With nothing selected only the 전체 card is highlighted, and clicking 전체 returns to that state |
| Settlements.FilteredSettlements | src/app/settlements/page.tsx:18-23 | The table holds exactly the settlements whose status the card selection names, or all of them with no selection, in list order |
| Settlements.SelectableUnderStatusCard | src/app/settlements/page.tsx:97-99 | Under the 정산대기 card every row's checkbox is enabled; under any other status card none is |
| Settlements.Ticked | src/app/settlements/page.tsx:33 | The ticked settlements are exactly those whose id is among the selected keys, in list order |
| Settlements.BatchTotal | src/app/settlements/page.tsx:27-36 | The batch action warns (no total) exactly when nothing is selected; otherwise it totals the ticked settlements |
| Settlements.BatchTotalDependsOnIdsOnly | src/app/settlements/page.tsx:32-34 | The batch total depends only on which ids are selected, not on their order or repetitions |
| Settlements.TickedTotalBounds | src/app/settlements/page.tsx:32-34 | With non-negative amounts, the batch total lies between 0 and the total of all settlements |
| Settlements.TickingAllTotalsAll | src/app/settlements/page.tsx:32-34 | Selecting every settlement totals all settlement amounts |
| Settlements.DistinctFacts | src/app/settlements/page.tsx:115 | De-duplication keeps the same members, without repeats, each in the order of its first occurrence |
| Settlements.DistinctKeepsFirstOrder | src/app/settlements/page.tsx:115 | Any two de-duplicated names appear in the order of their first occurrences in the input |
| Settlements.TickedUncons | src/app/settlements/page.tsx:33 | The ticked rows of a list are its first row when that id is ticked, followed by the ticked rows of the rest |
| Settlements.DistinctSnoc | src/app/settlements/page.tsx:115 | Appending an element adds it to the de-duplicated list exactly when it was not yet present |
| Settlements.DistinctExample | src/app/settlements/page.tsx:115 | A repeated store name appears once, at its first position: 가, 나, 가 gives 가, 나 |
| Settlements.StoreNameOptions | src/app/settlements/page.tsx:115-118 | The store-name options are exactly the names some settlement carries, each once |
| Settlements.SettlementsPage.constructor | src/app/settlements/page.tsx:15-16 | No status is selected, no row is ticked, and the table is every settlement |
| Settlements.SettlementsPage.ClickCard | src/app/settlements/page.tsx:156-159 | A card click selects that status, or none for 전체, and keeps the ticked rows |
| Settlements.SettlementsPage.SelectionChanged | src/app/settlements/page.tsx:94-96 | The ticked rows are replaced wholesale by the table's selection |
| Settlements.SumAmounts | src/app/settlements/page.tsx:32-34 | The left-to-right running sum of the amounts equals the total of the list |
| Settlements.SettlementsPage.BatchProcess | src/app/settlements/page.tsx:27-36 | The batch action gives no total when nothing is ticked, and otherwise the total of the ticked settlements |
| Navigation.FindMatch | src/components/layout/AdminLayout.tsx:122 | The result is the first menu entry whose key is not "/" and starts the path, or none when no entry does |
| Navigation.SelectedKeyIsMenuKey | src/components/layout/AdminLayout.tsx:119-125 | The highlighted key is always "/" or the key of a menu item |
| Navigation.DividersNeverMatch | src/components/layout/AdminLayout.tsx:70-88 | A divider has key `undefined`, which no path starting with "/" begins with, so dividers never match |
| Navigation.MenuKeysNonEmpty | src/components/layout/AdminLayout.tsx:28-95 | Every menu item's key is non-empty |
| Navigation.FirstPrefixOf | src/components/layout/AdminLayout.tsx:122-124 | Over any entry list with non-empty keys and non-matching dividers, a match exists exactly when some item key other than "/" starts the path, and the match is the first such item |
| Navigation.SelectedKeyIsFirstPrefix | src/components/layout/AdminLayout.tsx:119-125 | For a path other than "/", the highlighted key is the first item key in menu order, other than "/", that starts the path, and "/" when there is none |
| Navigation.RootSelectsDashboard | src/components/layout/AdminLayout.tsx:120 | The root path highlights the dashboard |
| Navigation.StoreSettingsBeforeStores | src/components/layout/AdminLayout.tsx:28-40 | A path under /stores/settings highlights 가게설정, because it is listed before 가게 관리 |
| Navigation.StoreDetailSelectsStores | src/components/layout/AdminLayout.tsx:119-125 | A store detail path such as /stores/7 highlights 가게 관리 |
| Navigation.PrefixNotSegment | src/components/layout/AdminLayout.tsx:122 | Matching is by plain prefix and not by path segment: /storesX highlights 가게 관리 |
| Customers.CustomerClausesMeaning | src/app/customers/page.tsx:30-47 | The customer conditions hold exactly when the query is empty or the folded query occurs in the folded nickname or the present folded email, or the raw query occurs in the phone or the id; the applied phone occurs in the phone; and the status matches or is 전체 |
| Customers.FilteredCustomers | src/app/customers/page.tsx:30-47 | The table holds exactly the customers meeting the conditions, in list order; with default conditions it is every customer |
| Customers.AbsentEmailNeverMatches | src/app/customers/page.tsx:38 | A customer without an email matches a query only through nickname, phone or id |
| Customers.MannerColour | src/app/customers/page.tsx:69-74 | A score of 90 and up is green, 70 to 89 blue, 50 to 69 amber and below 50 red; each score has exactly one band |
| Customers.MannerColourMonotone | src/app/customers/page.tsx:69-74 | A higher score never gets a worse band |
| Customers.MannerBandsContiguous | src/app/customers/page.tsx:69-74 | Each band is an interval of scores |
| Customers.MannerColourFacts | src/app/customers/page.tsx:69-74 | The default score 80 is blue, the maximum 100 is green, and the four bands have different colours |
| Customers.CustomersPage.constructor | src/app/customers/page.tsx:18-27 | All inputs start empty or 전체, and the table starts as every customer |
| Customers.CustomersPage.SetNlSearch | src/app/customers/page.tsx:147 | Typing in the search box changes only the draft; the table is unchanged |
| Customers.CustomersPage.NlSearch | src/app/customers/page.tsx:49-51 | The searched value becomes the active query and nothing else changes |
| Customers.CustomersPage.SetPhoneFilter | src/app/customers/page.tsx:160 | Editing the phone draft leaves the table unchanged |
| Customers.CustomersPage.SetStatusFilter | src/app/customers/page.tsx:166 | Choosing a status draft leaves the table unchanged |
| Customers.CustomersPage.Search | src/app/customers/page.tsx:53-56 | The phone and status drafts become the applied conditions; the query is kept |
| Customers.CustomersPage.KeyPress | src/app/customers/page.tsx:58-62 | Enter applies the drafts; any other key leaves the applied conditions |
| Orders.FilteredOrders | src/app/orders/page.tsx:32-37 | The table holds exactly the orders whose phone holds the phone condition, whose store name holds the store condition and whose status matches or is 전체, in list order |
| Orders.PhoneNarrows | src/app/orders/page.tsx:33 | Adding a phone condition never adds an order to the table |
| Orders.CancelButtons | src/app/orders/page.tsx:186-191 | The partial and full cancel buttons appear together, exactly when an order is selected and its status is not a cancellation |
| Orders.OrdersPage.constructor | src/app/orders/page.tsx:18-26 | All inputs start empty or 전체, and the table starts as every order |
| Orders.OrdersPage.SetPhoneFilter | src/app/orders/page.tsx:127 | Editing the phone draft leaves the table unchanged |
| Orders.OrdersPage.SetStoreFilter | src/app/orders/page.tsx:134 | Editing the store draft leaves the table unchanged |
| Orders.OrdersPage.SetStatusFilter | src/app/orders/page.tsx:140 | Choosing a status draft leaves the table unchanged |
| Orders.OrdersPage.SetDateRange | src/app/orders/page.tsx:144-147 | The picked date range is recorded as a draft, and the table does not change, since no condition reads it |
| Orders.OrdersPage.Search | src/app/orders/page.tsx:39-43 | The three drafts become the applied conditions, and the table is the filter under them |
| Orders.OrdersPage.KeyPress | src/app/orders/page.tsx:45-49 | Enter applies the drafts; any other key leaves the applied conditions |
| Reviews.FilteredReviews | src/app/reviews/page.tsx:28-33 | The table holds exactly the reviews whose store name holds the store condition, whose phone holds the phone condition and whose status matches or is 전체, in list order |
| Reviews.FindRun | src/app/reviews/page.tsx:73 | The result is the first position from which eleven digits follow, or none when there is none |
| Reviews.MaskPhone | src/app/reviews/page.tsx:73 | Text without an eleven-digit run is unchanged; otherwise the first run is rewritten as ddd-****-dddd and the text around it is kept |
| Reviews.NoRunUnchanged | src/app/reviews/page.tsx:73 | A phone without eleven consecutive digits is shown as stored |
| Reviews.MaskHidesMiddle | src/app/reviews/page.tsx:73 | The masked run shows the first three and last four digits and never the middle four |
| Reviews.MaskExample | src/app/reviews/page.tsx:73 | 01012345678 is shown as 010-****-5678 |
| Reviews.HyphenatedPhoneUnchanged | src/app/reviews/page.tsx:73 | An already hyphenated phone such as 010-1234-5678 has no eleven-digit run and is shown unmasked |
| Reviews.ReviewActions | src/app/reviews/page.tsx:185-193 | Hide is offered exactly for a 정상 review, unhide exactly for a 숨김 one, and delete for anything but a 삭제 review, including no selection |
| Reviews.ReviewActionsExclusive | src/app/reviews/page.tsx:185-193 | Hide and unhide are never offered together; a deleted review offers nothing; a normal one offers hide and delete, a hidden one unhide and delete |
| Reviews.ReviewsPage.constructor | src/app/reviews/page.tsx:15-22 | All inputs start empty or 전체, and the table starts as every review |
| Reviews.ReviewsPage.SetStoreFilter | src/app/reviews/page.tsx:125 | Editing the store draft leaves the table unchanged |
| Reviews.ReviewsPage.SetPhoneFilter | src/app/reviews/page.tsx:132 | Editing the phone draft leaves the table unchanged |
| Reviews.ReviewsPage.SetStatusFilter | src/app/reviews/page.tsx:138 | Choosing a status draft leaves the table unchanged |
| Reviews.ReviewsPage.Search | src/app/reviews/page.tsx:35-39 | The three drafts become the applied conditions, and the table is the filter under them |
| Reviews.ReviewsPage.KeyPress | src/app/reviews/page.tsx:41-45 | Enter applies the drafts; any other key leaves the applied conditions |
| Reports.FilteredReports | src/app/reports/page.tsx:26-30 | The table holds exactly the reports whose type and status match the applied conditions (or 전체), in list order |
| Reports.DetailActions | src/app/reports/page.tsx:183-191 | The dialog offers start-processing for 접수, blacklist for 처리중 and release for 블랙, and nothing with no selection |
| Reports.TableActions | src/app/reports/page.tsx:104-108 | The table row offers release exactly for a 블랙 report, and nothing else |
| Reports.DetailActionsChain | src/app/reports/page.tsx:183-191 | A report offers at most one action, none exactly when released, and each action leads one step along 접수, 처리중, 블랙, 해제; the table and the dialog agree on release |
| Reports.NoSelectionNoActions | src/app/reports/page.tsx:183-191 | With no report selected the dialog offers nothing |
| Reports.ReportsPage.constructor | src/app/reports/page.tsx:15-20 | Every condition starts at 전체, and the table starts as every report |
| Reports.ReportsPage.SetTypeFilter | src/app/reports/page.tsx:125 | Choosing a type draft leaves the table unchanged |
| Reports.ReportsPage.SetStatusFilter | src/app/reports/page.tsx:135 | Choosing a status draft leaves the table unchanged |
| Reports.ReportsPage.Search | src/app/reports/page.tsx:32-35 | The two drafts become the applied conditions, and the table is the filter under them |
| Banners.FilteredBanners | src/app/banners/page.tsx:23-29 | The table is sorted by display order and is a permutation of the banners with the chosen status (all of them for 전체) |
| Banners.SortFacts | src/app/banners/page.tsx:28 | Sorting by order gives a sorted permutation of its input, with the same multiset of order values |
| Banners.SortStable | src/app/banners/page.tsx:28 | Sorting is stable: banners with equal order keep their relative positions |
| Banners.SortSortedIsIdentity | src/app/banners/page.tsx:28 | Sorting an already sorted array changes nothing |
| Banners.InsertInPlace | src/app/banners/page.tsx:69 | One insertion step places the element into the sorted rest of the array, in place, leaving the prefix alone |
| Banners.ShiftSmaller | src/app/banners/page.tsx:69 | Shifting moves every following banner of smaller order one place left and stops at the first of order at least the inserted one, leaving the prefix and the tail alone |
| Banners.InsertLayout | src/app/banners/page.tsx:69 | The shifted run, the inserted banner and the untouched tail together are the sorted insertion of the banner into the rest |
| Banners.SortInPlace | src/app/banners/page.tsx:69 | The in-place sort leaves the array equal to the sorted sequence of its old contents |
| Banners.SwapInPlace | src/app/banners/page.tsx:66-68 | Exchanging on the copy gives each of the two positions the other's order, and leaves every other field and position alone |
| Banners.IndexOf | src/app/banners/page.tsx:63 | The result is the first position with the id, or -1 exactly when no banner has it |
| Banners.SwapKeepsOrderValues | src/app/banners/page.tsx:66-68 | Exchanging two orders keeps the multiset of order values |
| Banners.MoveDownGuardAdmitsUnknownId | src/app/banners/page.tsx:76-77 | For an unknown id on a non-empty array, the move-down boundary guard lets position -1 through |
| Banners.MoveUpAtTopIsNoOp | src/app/banners/page.tsx:64 | Moving up the first banner, or an unknown id, changes nothing |
| Banners.MoveDownAtBottomIsNoOp | src/app/banners/page.tsx:77 | Moving down the last banner changes nothing |
| Banners.SwappedSorted | src/app/banners/page.tsx:65-69 | Swapping two orders on a copy and sorting it in place gives the sorted array of the swapped banners |
| Banners.StatusFilterFacts | src/app/banners/page.tsx:23-27 | The status filter keeps exactly the banners of the chosen status, and every banner for 전체 |
| Banners.MoveUpSwapsNeighbours | src/app/banners/page.tsx:61-72 | A real move up gives a sorted array in which the banner and its predecessor in the full array have exchanged orders, and nothing else changed |
| Banners.MoveDownSwapsNeighbours | src/app/banners/page.tsx:74-85 | A real move down gives a sorted array in which the banner and its successor in the full array have exchanged orders, and nothing else changed |
| Banners.MoveUpKeepsOrderValues | src/app/banners/page.tsx:61-72 | Moving up never creates or loses an order value |
| Banners.MoveDownKeepsOrderValues | src/app/banners/page.tsx:74-85 | Moving down never creates or loses an order value |
| Banners.MovesKeepDensity | src/app/banners/page.tsx:61-85 | When the orders are exactly 1 to n, they still are after either move |
| Banners.MoveSwapsWithHiddenNeighbour | src/app/banners/page.tsx:61-72 | Under a status filter, a move exchanges orders with the neighbour in the full array, which the filtered table may hide |
| Banners.RemoveBanner | src/app/banners/page.tsx:55 | Deletion keeps exactly the banners with other ids, with their multiplicities, in order |
| Banners.RemoveExample | src/app/banners/page.tsx:55 | Deleting banner a of a, b, c leaves b, c |
| Banners.DeleteCanLeaveGap | src/app/banners/page.tsx:55 | Deletion does not renumber: orders 1, 2, 3 with the first removed are no longer 1 to n |
| Banners.EditBanner | src/app/banners/page.tsx:97-99 | Editing replaces the form fields of the banners with the edited id, and leaves every other banner, and their ids and creation dates, alone |
| Banners.AddWithSuggestedOrderKeepsDensity | src/app/banners/page.tsx:34 | When the orders are 1 to n, a new banner that takes the suggested order n + 1 keeps them 1 to n + 1 |
| Banners.BannersPage.constructor | src/app/banners/page.tsx:21 | The status filter starts at 전체 and the array is the initial banners |
| Banners.BannersPage.SetStatusFilter | src/app/banners/page.tsx:202 | Choosing a status changes only the filter |
| Banners.BannersPage.SuggestOrder | src/app/banners/page.tsx:31-36 | The add form proposes the array length plus one as the order |
| Banners.BannersPage.MoveUp | src/app/banners/page.tsx:61-72 | The array becomes the moved-up array, computed on a copy with an in-place sort |
| Banners.BannersPage.MoveDown | src/app/banners/page.tsx:74-85 | The array becomes the moved-down array, computed on a copy with an in-place sort |
| Banners.BannersPage.Delete | src/app/banners/page.tsx:47-59 | The array loses the banners with the id |
| Banners.BannersPage.SubmitNew | src/app/banners/page.tsx:100-107 | A new banner built from the form, the new id and the creation date is appended |
| Banners.BannersPage.SubmitEdit | src/app/banners/page.tsx:97-99 | The banners with the edited id take the form's fields |
| Coupons.CouponClausesMeaning | src/app/coupons/page.tsx:30-46 | The coupon conditions hold exactly when the search text is empty or the lower-cased text occurs in the folded customer name, the unfolded phone, the folded code or the folded coupon name, and the status matches or is 전체 |
| Coupons.FilteredCoupons | src/app/coupons/page.tsx:30-46 | The table holds exactly the coupons meeting the conditions, in list order; with default conditions it is every coupon |
| Coupons.PickerCandidates | src/app/coupons/page.tsx:52-55 | The candidates are exactly the customers whose folded nickname holds the text or whose phone holds it, in list order |
| Coupons.PickCustomers | src/app/coupons/page.tsx:49-56 | An empty text shows no customers; otherwise the picker shows the first five candidates in order (all of them when fewer) |
| Coupons.Issue | src/app/coupons/page.tsx:89-91 | Issuing puts the new coupon first and keeps the others after it |
| Coupons.Extend | src/app/coupons/page.tsx:108-123 | Extending sets a new expiry on the coupons with the id and changes nothing else |
| Coupons.Delete | src/app/coupons/page.tsx:125-137 | Deleting marks the coupons with the id as 삭제 and changes nothing else; the coupon stays in the list |
| Coupons.CouponActions | src/app/coupons/page.tsx:203-215 | Extend and delete are offered exactly for a 사용가능 coupon |
| Coupons.DeletedCouponsOfferNothing | src/app/coupons/page.tsx:133 | A deleted coupon offers no more actions |
| Coupons.CountStatus | src/app/coupons/page.tsx:220-222 | A status count is at most the coupon count, and is zero exactly when no coupon has the status |
| Coupons.StatsPartition | src/app/coupons/page.tsx:219-225 | The available, used and expired counts plus the deleted coupons add up to the coupon count |
| Coupons.TotalDiscountBounds | src/app/coupons/page.tsx:223 | With non-negative discounts, the redeemed total lies between 0 and the total of all discounts |
| Coupons.IssueStats | src/app/coupons/page.tsx:77-97 | Issuing a coupon adds one available coupon and leaves the used, expired and discount statistics |
| Coupons.ExtendKeepsStats | src/app/coupons/page.tsx:108-123 | Extending leaves every statistic unchanged |
| Coupons.DeleteStats | src/app/coupons/page.tsx:125-137 | Deleting an available coupon lowers the available count by the number of coupons with the id and leaves the rest |
| Coupons.CouponsPage.constructor | src/app/coupons/page.tsx:23-27 | Every input starts empty or 전체 with no coupon selected |
| Coupons.CouponsPage.Search | src/app/coupons/page.tsx:271 | Searching sets the search text and nothing else |
| Coupons.CouponsPage.SearchInputChanged | src/app/coupons/page.tsx:272 | Clearing the box clears the search text; any other edit leaves it |
| Coupons.CouponsPage.SetStatusFilter | src/app/coupons/page.tsx:281 | Choosing a status changes only the status filter |
| Coupons.CouponsPage.SetCustomerSearchText | src/app/coupons/page.tsx:326 | Typing in the picker changes only the picker text |
| Coupons.CouponsPage.ClearCustomerSearch | src/app/coupons/page.tsx:58-75 | Opening the issue form or picking a customer clears the picker text, so no customer is listed |
| Coupons.CouponsPage.IssueCoupon | src/app/coupons/page.tsx:77-97 | The coupons become the list with the new coupon first |
| Coupons.CouponsPage.OpenExtend | src/app/coupons/page.tsx:99-106 | Opening the extend dialog remembers the coupon's id |
| Coupons.CouponsPage.ExtendSubmit | src/app/coupons/page.tsx:108-123 | Submitting extends the remembered coupon, and changes nothing when none is remembered |
| Coupons.CouponsPage.DeleteCoupon | src/app/coupons/page.tsx:125-137 | The coupons with the id are marked deleted |
| Push.FilteredNotifications | src/app/push/page.tsx:30-36 | The table holds exactly the notifications whose status and target type match the filters (or 전체), in list order |
| Push.SearchedCustomers | src/app/push/page.tsx:39-45 | Customer results appear only for a specific-customer target with a text, and are then the coupon page's picker: at most five matching customers in order |
| Push.StoreSearchClauseMeaning | src/app/push/page.tsx:49-52 | A store matches the seller search exactly when its folded name holds the text or its owner phone is present and holds it |
| Push.SearchedStores | src/app/push/page.tsx:47-53 | Store results appear only for a specific-seller target with a text: at most five matching stores in order, a store without an owner phone matching by name |
| Push.FindCohort | src/app/push/page.tsx:91 | The result is the first cohort with the chosen name, and none exactly when no name is chosen or no cohort has it |
| Push.ApprovedCount | src/app/push/page.tsx:88 | The approved count is at most the store count; it is zero exactly when no store is approved and full exactly when all are |
| Push.ComputeTargetCount | src/app/push/page.tsx:82-98 | All customers gives 100 per customer, all sellers the approved store count, a cohort its member count (0 when none is found), and one specific customer or seller 1 |
| Push.Cancel | src/app/push/page.tsx:128-130 | Cancelling marks the notifications with the id as 취소 and changes nothing else |
| Push.CanCancelIffScheduled | src/app/push/page.tsx:235-237 | The cancel button is shown exactly for a 발송예정 notification |
| Push.CancelRemovesButton | src/app/push/page.tsx:100-130 | A cancelled notification loses its cancel button, and a new notification always has one |
| Push.RateShownAsWritten | src/app/push/page.tsx:223 | The success-rate cell's guard as written: delivered, with a present and non-zero success count |
| Push.RateGuardAdmitsZeroTarget | src/app/push/page.tsx:223-224 | The written guard admits a delivered notification with success count 3 and target count 0, whose rate divides by zero |
| Push.RateShown | src/app/push/page.tsx:223-224 | The corrected guard adds a positive target count |
| Push.RateShownIsDefined | src/app/push/page.tsx:223-224 | Under the corrected guard the rate's divisor is never zero; the two guards agree whenever the target count is positive; neither shows a rate for an undelivered notification or a missing or zero success count |
| Push.SuccessRate | src/app/push/page.tsx:224 | A shown rate is a non-negative percentage, at most 100 when the successes do not exceed the target |
| Push.Sent | src/app/push/page.tsx:245 | The sent notifications are exactly the 발송완료 ones |
| Push.TotalSentBounds | src/app/push/page.tsx:247 | The total sent is non-negative, and zero when nothing was delivered |
| Push.CreateStats | src/app/push/page.tsx:100-112 | A new notification adds one scheduled notification and leaves the sent statistics |
| Push.CancelStats | src/app/push/page.tsx:120-134 | Cancelling scheduled notifications leaves the sent count and total and never raises the scheduled count |
| Push.AverageSuccessRate | src/app/push/page.tsx:248-250 | With no delivered notification the average is 0 |
| Push.SumRatesBounds | src/app/push/page.tsx:249 | With plausible counts the sum of rates is defined and lies between 0 and 100 per notification |
| Push.AverageIsPercentage | src/app/push/page.tsx:248-250 | When every delivered notification has plausible counts, the average success rate is defined and lies between 0 and 100 |
| Push.ZeroTargetSpoilsAverage | src/app/push/page.tsx:249 | One delivered notification with target count 0 makes the average undefined |
| Push.PushPage.constructor | src/app/push/page.tsx:23-28 | The filters start at 전체, the target type at 전체고객, and the search text empty |
| Push.PushPage.SetStatusFilter | src/app/push/page.tsx:294 | Choosing a status changes only the status filter |
| Push.PushPage.SetTargetFilter | src/app/push/page.tsx:309 | Choosing a target type filter changes only that filter |
| Push.PushPage.OpenForm | src/app/push/page.tsx:55-64 | Opening the form resets the target type to 전체고객 and clears the search, so no results are listed |
| Push.PushPage.ChangeTargetType | src/app/push/page.tsx:66-70 | Changing the target type clears the search, so no results are listed |
| Push.PushPage.SetSearchText | src/app/push/page.tsx:397 | Typing changes only the search text |
| Push.PushPage.SelectTarget | src/app/push/page.tsx:72-75 | Picking a target clears the search text |
| Push.PushPage.Submit | src/app/push/page.tsx:77-118 | A new notification is put first and the others are kept after it: it carries the id, the form's title, message, target type, target detail and schedule, and the creation date; it is 발송예정, with no send time and no success count; its target count is 1 for a single customer or seller, the customer count times 100 for every customer, the approved-store count for every seller, and the chosen cohort's member count (0 when none has that name) for a cohort |
| Push.PushPage.CancelNotification | src/app/push/page.tsx:120-134 | The notifications with the id are marked cancelled |

## Left out

- Dates and times (`dayjs`) are not modelled. This covers the coupon extension's "30 days later" default, the picker's `disabledDate`, the push page's `scheduledAt` default and every formatted date. Dates are opaque strings passed in as parameters.
- `Date.now()` identifiers, generated coupon codes and creation dates are not generated by the model. They are parameters of the operations that use them.
- Toasts, confirmation modals, opening and closing dialogs, and form validation are left out. The model takes an operation at the point where its confirmation handler runs with validated values.
- The handlers that only show a toast change no data: order cancellation, review and report status changes, and blacklist release. They are modelled only as the button sets that offer them.
- Push.SuccessRate: the exact quotient is modelled, not the `toFixed(1)` rounding to one decimal or the 95% colour threshold. Both are floating-point presentation.
- Push.AverageSuccessRate: the average is an `Option<real>`. A division by zero, which gives `Infinity` or `NaN` in the source, is `None`. The `toFixed(1)` string is not modelled.
- Banners.BannersPage.MoveUp: the source's `[...prev]` is a shallow copy, so assigning `order` mutates the banner objects shared with the previous state. The model treats banners as values and does not capture that aliasing.
- Banners.MovedDown: requires the id to be present in a non-empty array. For an unknown id the source reads position -1 and throws, and `Banners.MoveDownGuardAdmitsUnknownId` exhibits that guard. The user interface only moves ids of listed banners.
- The case folding of `toLowerCase` is the parameter `fold`. Unicode case mapping is not modelled, so the lemmas hold for any folding function.
- `String.prototype.replace` with a regular expression is modelled only for the one pattern the review list uses: the first run of eleven ASCII digits.
- StatusCards.Lookup: a missing count is `None`, which stands for the error path. In the source, `count.toLocaleString()` (StatusCards.tsx:56) throws a TypeError on an `undefined` count, and the card row fails to render. `StatusCards.CardsRenderIff` states when a row renders: only when the counts record holds `total` and every label. The exception itself and the colours are not modelled.
- Router navigation (`router.push`, row clicks that open detail pages), the menu's click handler and the collapse state of the layout are left out. `getSelectedKey` takes the path as a parameter.
- The order page's date-range picker (`Orders.OrdersPage.SetDateRange`) and the store settings page's period picker are only recorded as drafts, because the source never applies them to a filter. The picked dates are opaque strings.
- Banner display orders are integers in the model (`int`). The source's `InputNumber` has `min={1}` but no `precision`, so it also accepts a fractional order such as 1.5, and the sort on `a.order - b.order` would handle it. Sortedness, permutation and stability do not depend on integrality. `Banners.Dense`, the suggested order and the density lemmas reason only about integer orders.
- Mock data arrays are parameters (the list each page starts from), not fixed constants.
- The dashboard, settings, customer detail and store detail pages are not part of this model, and neither are the status badge and the root layout.

## Findings

| source | as written | input that shows it | evidently intended | confidence | as-written member | corrected member |
|---|---|---|---|---|---|---|
| src/app/push/page.tsx:223-224 | the success-rate cell is shown for any 발송완료 notification with a non-zero success count, without checking the target count it divides by | a 발송완료 notification with successCount 3 and targetCount 0 (no page path builds such a record, since new notifications are 발송예정 without a success count; it needs delivery data with a zero audience) shows `Infinity%` | show a rate only when the target count is positive | low, not executed | Push.RateGuardAdmitsZeroTarget | Push.RateShownIsDefined |
