# Plan-Repas: the list handlers of four of its pages

Plan-Repas is a Next.js site. Four of its pages are modelled here, and each keeps its state in React state cells:

- a pizza storefront with a cart;
- a to-do list;
- a pizza back-office that lists the stored orders;
- a weekly meal planner.

Most handlers build a new array from the old one with `map`, `filter`, `find` or a spread, and hand it to a setter. The others only flip or set one value:

- `toggleCart` and `toggleHistory` flip a flag;
- `toggleOrderExpand` replaces the expanded id;
- the vegetarian button, the sort select and the search box set a value;
- the draft reset after a save sets a value.

The cart total and badge are `reduce` sums. The storefront's pizza list is computed during rendering: it filters the catalogue and sorts the copy in place. The order loader also sorts in place. This project models those computations and proves what they guarantee.

Modules, one per file:

- `Lists` (`lists.dfy`) holds `Option` (null or undefined), the array methods `filter`, `map` and `reduce` as `Filter`, `Map` and `Sum`, the subsequence relation and the substring test `includes`.
- `Sorting` (`sorting.dfy`) models `Array.prototype.sort` with a subtracting comparator on one integer key. It is an in-place insertion sort on an `array`. It never exchanges elements the comparator calls equal, so the comparator that always returns 0 leaves the array as it was, just as a stable sort does.
- `PizzaShop` (`pizza_shop.dfy`) covers `app/pizza/page.jsx`.
  - The cart reducers are functions.
  - The catalogue view is a method, because it copies the filtered pizzas into an array and sorts it.
  - The class `ShopPage` holds the cells `cart`, `isCartOpen`, `filterVegetarian` and `sortBy`.
- `TodoList` (`todo_list.dfy`) covers `app/todolist/page.jsx`. Its handlers are pure functions on the task list.
- `OrderDashboard` (`order_dashboard.dfy`) covers `app/pizza/admin/dashboard/page.jsx`.
  - Loading is a method that sorts in place.
  - The other handlers are functions.
  - The class `Dashboard` holds the page's cells.
- `MealPlanner` (`meal_planner.dfy`) covers `app/page.tsx`. It has pure functions on the week plan, the recipe list and the recipe draft, and the `split`/`join` pair of the ingredients field.

Conventions:

- Money is integer cents. Every catalogue price is a multiple of 0.50 €, so 2.50 € is `DeliveryFee == 250`.
- The grand total the back-office displays for an order is `OrderDashboard.DisplayedTotal`, a plain definition: the order's subtotal plus the constant `DeliveryFee` (app/pizza/admin/dashboard/page.jsx:275 and :329).
- Dates are integer timestamps.
- Ids are opaque strings. The recipe id, which the page takes from the clock, is a parameter.
- The page's `toLowerCase` is a parameter `lower: string -> string`.

## Model

| member | source | states |
|---|---|---|
| PizzaShop.AddLine | app/pizza/page.jsx:17-28 | A pizza whose id is in the cart raises the quantity of exactly the lines with that id by one and leaves the length unchanged. Any other pizza is appended as a line of quantity 1 after the unchanged old lines. |
| PizzaShop.AddExisting | app/pizza/page.jsx:18-25 | In a valid cart, adding a pizza present at position k raises line k by one and leaves every other line unchanged. |
| PizzaShop.RemoveLine | app/pizza/page.jsx:36-38 | The result has no line with the id and is a subsequence of the cart. It keeps every other line with its multiplicity. Removing an absent id changes nothing. |
| PizzaShop.RemovePresent | app/pizza/page.jsx:36-38 | In a valid cart, removing the id of line k gives the cart without exactly that line, with the others in their order. |
| PizzaShop.ChangeQuantity | app/pizza/page.jsx:40-50 | Only lines with the id change. They take quantity + change when that is positive and otherwise keep their quantity. The pizza and the length are unchanged. |
| PizzaShop.AddKeepsValid | app/pizza/page.jsx:17-34 | Adding keeps ids pairwise distinct and every quantity at least 1. |
| PizzaShop.RemoveKeepsValid | app/pizza/page.jsx:36-38 | Removing keeps ids distinct and quantities at least 1. |
| PizzaShop.SubsequenceKeepsValid | app/pizza/page.jsx:37 | Every subsequence of a valid cart is valid. This is why a filtered cart stays valid. |
| PizzaShop.ChangeKeepsValid | app/pizza/page.jsx:40-50 | The guarded quantity change keeps ids distinct and quantities at least 1. |
| PizzaShop.ReplayKeepsValid | app/pizza/page.jsx:17-50 | Any sequence of add, remove and update actions from a valid cart, for example the empty one, ends in a valid cart. |
| PizzaShop.Total | app/pizza/page.jsx:52-54 | The total is 0 for the empty cart, and it is never negative when no quantity is negative. |
| PizzaShop.AddRaisesTotals | app/pizza/page.jsx:17-54 | In a valid cart whose lines for the pizza's id carry the catalogue price, each add raises the badge count by exactly 1 and the total by the pizza's price, whether it merges into a line or appends one. |
| PizzaShop.RemoveLowersTotals | app/pizza/page.jsx:36-54 | Removing line k lowers the badge count by its quantity and the total by its price times quantity. |
| PizzaShop.ItemCount | app/pizza/page.jsx:170 | The badge count of the empty cart is 0. |
| PizzaShop.Badge | app/pizza/page.jsx:168-172 | The badge is drawn if and only if the cart has a line, and it then shows the sum of the quantities. |
| PizzaShop.ParseSortOrder | app/pizza/page.jsx:59-62 | "price-asc" selects ascending price and "price-desc" descending price, each in both directions of the if-and-only-if. Any other value gives the comparator that returns 0. |
| PizzaShop.VegetarianFilter | app/pizza/page.jsx:58 | Each pizza occurs in the result as often as in the catalogue when it passes the filter test, and not at all otherwise. So with the filter on, the result holds exactly the vegetarian pizzas, and with it off, the whole catalogue. The result is a subsequence of the catalogue. |
| PizzaShop.FilteredPizzas | app/pizza/page.jsx:57-63 | The result is a permutation of the filtered pizzas, so a permutation of the whole catalogue with the filter off. With the filter on, every pizza in it is vegetarian. "price-asc" gives non-decreasing prices and "price-desc" non-increasing ones. Any other value keeps catalogue order. |
| PizzaShop.ShopPage.ToggleCart | app/pizza/page.jsx:13-15 | The panel flag is flipped and nothing else changes. The cart invariant is kept. |
| PizzaShop.ShopPage.AddToCart | app/pizza/page.jsx:17-34 | The cart becomes AddLine of the old cart, the panel is open afterwards, and the cart invariant is kept. |
| PizzaShop.ShopPage.RemoveFromCart | app/pizza/page.jsx:36-38 | The cart becomes RemoveLine of the old cart, and the invariant is kept. |
| PizzaShop.ShopPage.UpdateQuantity | app/pizza/page.jsx:40-50 | The cart becomes ChangeQuantity of the old cart, and the invariant is kept. |
| PizzaShop.ShopPage.ToggleVegetarian | app/pizza/page.jsx:84 | The filter flag is flipped and nothing else changes. The cart invariant is kept. |
| PizzaShop.ShopPage.SetSortBy | app/pizza/page.jsx:100 | The sort select takes the new value and nothing else changes. The cart invariant is kept. |
| PizzaShop.ShopPage.Displayed | app/pizza/page.jsx:57-63 | The page lists a permutation of the filtered catalogue, sorted by the current select, and in catalogue order when the select is not a price order. |
| PizzaShop.ShopPage.constructor | app/pizza/page.jsx:8-11 | The page starts with an empty cart, a closed panel, the filter off and the sort "default". |
| Sorting.SortInPlace | app/pizza/page.jsx:59-63 | The sort is also used for the orders at app/pizza/admin/dashboard/page.jsx:60. After the sort, no pair is out of order for the comparator, and the array holds the same elements. The comparator that returns 0 leaves the array unchanged. |
| TodoList.InitialTaches | app/todolist/page.jsx:161-166 | The list starts with one task, "Repasser", which is checked. |
| TodoList.AddTache | app/todolist/page.jsx:168-170 | One unchecked task is appended after the unchanged old tasks. No name is refused. |
| TodoList.Toggle | app/todolist/page.jsx:182-188 | Names and length are kept, and a task's flag changes if and only if its name is the argument. |
| TodoList.ToggleTwice | app/todolist/page.jsx:182-188 | Toggling the same name twice gives back the list. |
| TodoList.Edit | app/todolist/page.jsx:171-177 | Every task named `ancienNom` is renamed to `nouveauNom` and keeps its flag. The length is kept and the other tasks are untouched. |
| TodoList.EditUndo | app/todolist/page.jsx:171-177 | When the new name is not taken, renaming back restores the list. |
| TodoList.Delete | app/todolist/page.jsx:178-180 | No task with the name is left, and the others keep their multiplicity and relative order. Deleting an absent name changes nothing. |
| TodoList.DeleteLength | app/todolist/page.jsx:178-180 | Delete removes exactly as many tasks as carried the name. |
| TodoList.DeleteAfterAdd | app/todolist/page.jsx:168-180 | Deleting, by its name, a task just added gives what deleting that name from the old list gives. |
| TodoList.AbsentNameChangesNothing | app/todolist/page.jsx:171-188 | Toggle, edit and delete on a name not in the list each leave the list unchanged. |
| OrderDashboard.WithState | app/pizza/admin/dashboard/page.jsx:54-57 | A stored order keeps all its fields. A missing or empty state becomes "ordered", and any other state is kept. |
| OrderDashboard.WithStates | app/pizza/admin/dashboard/page.jsx:54-57 | Normalising keeps the number of orders and their positions. |
| OrderDashboard.LoadedOrders | app/pizza/admin/dashboard/page.jsx:47-70 | Unparseable storage gives the empty list. Otherwise the result is a permutation of the normalised orders, of the same length, sorted newest first, with no order left without a state. |
| OrderDashboard.UpdateOrderState | app/pizza/admin/dashboard/page.jsx:72-77 | Only the `state` of the orders with the id changes. Length, order and all other orders stay the same. |
| OrderDashboard.UpdateMovesCount | app/pizza/admin/dashboard/page.jsx:72-77 | When ids are unique, setting order k to a new state raises that state's counter by one and lowers the old state's counter by one. |
| OrderDashboard.UpdateKeepsStatesKnown | app/pizza/admin/dashboard/page.jsx:72-77 | Setting one of the four known states keeps every order's state known. |
| OrderDashboard.ToggleOrderExpand | app/pizza/admin/dashboard/page.jsx:88-90 | The result is none if and only if the toggled order was the expanded one. Otherwise the toggled order becomes the only expanded one. |
| OrderDashboard.ToggleExpandTwice | app/pizza/admin/dashboard/page.jsx:88-90 | Toggling the same order twice ends expanded if and only if it started expanded. |
| OrderDashboard.FilteredOrders | app/pizza/admin/dashboard/page.jsx:124-142 | The view is a subsequence of the orders and holds no delivered order while history is hidden. With history shown and no search it equals the whole list. With a search, an order is kept if and only if it is allowed by history and matches the lower-cased term on id, first name, last name or an item name. Each order occurs as often as in the list when it passes the test, and not at all otherwise. |
| Lists.IncludesAt | app/pizza/admin/dashboard/page.jsx:134-137 | `Includes`, the model of `String.prototype.includes` in the search, holds if and only if the term occurs in the text at some position. |
| OrderDashboard.CountByState | app/pizza/admin/dashboard/page.jsx:145-147 | A counter is at most the number of orders. It is 0 if and only if no order has that state, and it equals the number of orders if and only if every order has it. |
| OrderDashboard.CountIsMultiplicity | app/pizza/admin/dashboard/page.jsx:145-147 | A counter equals the number of times its state occurs among the orders' states. |
| OrderDashboard.CountAll | app/pizza/admin/dashboard/page.jsx:146 | The filter on one state keeps every order if and only if every order is in that state. |
| OrderDashboard.CountsAddUp | app/pizza/admin/dashboard/page.jsx:145-147 | When every state is one of the four ids, the four counters add up to the number of orders. |
| OrderDashboard.Dashboard.constructor | app/pizza/admin/dashboard/page.jsx:29-33 | The page starts with no orders, loading, nothing expanded, history hidden and an empty search. |
| OrderDashboard.Dashboard.LoadOrders | app/pizza/admin/dashboard/page.jsx:47-70 | The orders become the loaded list, newest first, and loading has ended. The other cells are kept. |
| OrderDashboard.Dashboard.UpdateState | app/pizza/admin/dashboard/page.jsx:72-79 | The orders become UpdateOrderState of the old orders, and the other cells are kept. |
| OrderDashboard.Dashboard.ToggleExpand | app/pizza/admin/dashboard/page.jsx:88-90 | The expanded id becomes ToggleOrderExpand of the old one, and the other cells are kept. |
| OrderDashboard.Dashboard.ToggleHistory | app/pizza/admin/dashboard/page.jsx:92-94 | The history flag is flipped and nothing else changes. |
| OrderDashboard.Dashboard.SetSearchTerm | app/pizza/admin/dashboard/page.jsx:229 | The search term takes the new value and nothing else changes. |
| MealPlanner.InitialWeekPlan | app/page.tsx:25-39 | The plan has seven slots, Lundi to Dimanche in `DAYS` order, each without a recipe. |
| MealPlanner.InitialPlanWellFormed | app/page.tsx:25-39 | The initial plan is well formed, and the seven days are distinct. |
| MealPlanner.SelectRecipe | app/page.tsx:69-75 | The slots of that day get the recipe or none, and the other slots are unchanged. Length and day order are kept. |
| MealPlanner.SelectInWellFormedPlan | app/page.tsx:69-75 | In a well-formed plan, selecting for day k changes exactly slot k and keeps the plan well formed. |
| MealPlanner.ClearAfterSelect | app/page.tsx:187 | "Changer de recette" after any selection leaves the plan that clearing that day gives, so the selector shows again. |
| MealPlanner.FindRecipe | app/page.tsx:144 | The result is none if and only if no recipe has the id. Otherwise it is the first recipe with the id. |
| MealPlanner.ChooseRecipe | app/page.tsx:143-146 | An id not among the recipes leaves the plan unchanged. A found id selects the recipe found. |
| MealPlanner.SaveRecipe | app/page.tsx:53-67 | Without a name, without instructions or with undefined ingredients, nothing changes, while an empty ingredient list passes. Otherwise exactly one recipe with the draft's fields is appended after the unchanged recipes, and the draft is reset. |
| MealPlanner.SaveTwiceAddsOnce | app/page.tsx:54-66 | The reset draft fails the guard, so saving again at once adds nothing. |
| MealPlanner.Split | app/page.tsx:116 | `split("\n")` gives at least one piece, and no piece holds a line break. |
| MealPlanner.SplitCount | app/page.tsx:116 | There is one piece more than there are line breaks in the text. |
| MealPlanner.JoinCount | app/page.tsx:115 | `MealPlanner.Join`, the `join("\n")` of the field's value, puts exactly one line break fewer than there are pieces between pieces that hold none. Its round trips with `Split` are `JoinSplit` and `SplitJoin`. |
| MealPlanner.JoinSplit | app/page.tsx:115-116 | Joining the pieces of a split gives back the text, so the ingredients field shows what was typed. |
| MealPlanner.SplitJoin | app/page.tsx:115-116 | Splitting the join of a non-empty list of pieces without line breaks gives back the pieces. |
| MealPlanner.SplitOfEmptyList | app/page.tsx:115-116 | The empty ingredient list shows as the empty text, which splits back into one empty piece rather than the empty list. |

## Left out

- Storage: the reads and writes of `localStorage` are left out. Their contents enter the model as parameters, and `JSON.parse` failing is the `None` of `Dashboard.LoadOrders`. The meal planner's initial load from storage is left out.
- Timing: the 800 ms delay before loading orders is left out; `Dashboard.LoadOrders` is the state once it has passed. The model has no concurrency, so a handler reading a stale closure is not represented.
- Floating point: `toFixed` and `parseFloat` are left out. Amounts are integer cents.
- Dates and clocks: parsing and `Intl.DateTimeFormat` are left out. Dates are integers, and the clock-based recipe id is a parameter.
- Case folding: `toLowerCase` is the parameter `lower`, and its Unicode behaviour is not modelled.
- Presentation: rendering, animation and styling are left out, as are the to-do list's inline-edit cells `editingTask`/`editText`. Those cells only choose which widget is drawn, and their result reaches `TodoList.Edit` as its arguments.
- Other pages: checkout, confirmation and login are left out. They are storage, formatting and a fixed password comparison.
- Data files: the catalogue and recipe data files are fixtures; the catalogue is a parameter.
- PDF handlers: `generatePDF` and `generateWeeklyPDF` only log. The button labelled "Générer la liste de courses de la semaine" (app/page.tsx:206) calls `generateWeeklyPDF` (app/page.tsx:82-85), which only logs. The code has no shopping-list aggregation, so none is modelled.
- Sorting.SortInPlace: stability is proved only for the comparator that returns 0. For the two price orders and the date order, the relative order of equal keys is not stated.
- PizzaShop.Total: it is stated over integer cents, so the rounding of `toFixed(2)` on a float sum is not represented.
- OrderDashboard.Dashboard.Shown: it is a query with no contract of its own. It only applies `FilteredOrders` to the current cells.
