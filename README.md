# Zeltero_B2B in Dafny

A model of the core of Zeltero_B2B, a Magento 2 extension that adds B2B features to a store:

- **Companies.** A company has a three-valued approval status: `pending`, `approved` or `rejected`.
- **Registration.** The storefront registers companies. New companies start as approved or pending, depending on the `auto_approve` setting.
- **Admin actions.** The admin approves and deletes companies.
- **Admin grid.** The company grid gets an actions column: Edit, then Approve for pending companies, then Delete.
- **ERP export.** Orders are exported to a file for an ERP system, as CSV, XML or JSON.
- **Quick order.** A best-effort batch adds SKUs to a customer's cart.
- **Customer groups.** A data patch creates three default wholesale customer groups.

## Modelling choices

Each piece is modelled in the form it has in the extension:

- **Objects that change in place** are classes whose methods carry `modifies` and state their whole new state:
  - the company model object;
  - the company table;
  - the session's message queue;
  - the cart;
  - the export directory;
  - the customer-group repository.
- **Pure computations** are functions. Their lemmas relate them to reference definitions:
  - the CSV layout;
  - `ucwords`;
  - the grid row rewrite.
- **Loops** in the extension are `for` or `while` loops with invariants. Each loop is proved against a specification function:
  - `prepareOrderData`;
  - `generateCsv`;
  - the quick-order batch;
  - `prepareDataSource`;
  - the patch's `apply`.

The surrounding framework is not modelled. Anything a request or the store supplies becomes an input to the model:

- **Configuration values** are `Option<string>`, and PHP truthiness decides them: `null`, `""` and `"0"` are falsy.
- **Exceptions** are inputs that choose the error path:
  - `Fault` for the company table;
  - `Option<Stage>` for the export steps;
  - `Option<string>` for a failed save.
- **Catalogue lookups** are function parameters:
  - the product lookup and the cart add (`attempt`), which returns `Added`, `NotFound` or `Failed(message)`;
  - the tax-class lookup (`taxClassOf`);
  - the per-code failure of the patch (`fails`).
- **Other collaborators** are function parameters too:
  - the URL builder;
  - the XML and JSON generators.

Modules:

- `Php` (php.dfy): truthiness, `implode`, decimal printing and parsing of ids.
- `CompanyModel` (company.dfy): the `Company` model object.
- `Storage` (storage.dfy): the company table and the message queue.
- `CompanyRegister` (register.dfy): the storefront registration.
- `AdminCompany` (admin_company.dfy): the admin Approve and Delete actions.
- `CompanyActions` (company_actions.dfy): the actions column of the company grid.
- `ErpExport` (erp_export.dfy): the ERP export service.
- `QuickOrder` (quick_order.dfy): the quick-order endpoint.
- `DefaultCustomerGroups` (customer_groups.dfy): the customer-group data patch.

## Model

| member | source | states |
|---|---|---|
| Php.ParsePrintedId | app/code/Zeltero/B2B/Controller/Adminhtml/Company/Approve.php:42-48 | Printing a numeric id and reading it back as a request id gives the same key. |
| CompanyModel.ParseStatus | app/code/Zeltero/B2B/Model/Company.php:11-13 | Exactly the three constant codes name a status. A parsed status stores the code it was read from. |
| CompanyModel.StatusCodesRoundTrip | app/code/Zeltero/B2B/Model/Company.php:11-13 | Distinct statuses have distinct codes, and each code reads back as its own status. |
| CompanyModel.Company.SetData | app/code/Zeltero/B2B/Controller/Company/Register.php:65-66 | The object's data array becomes the given array, and the id is kept. |
| CompanyModel.Company.SetCompanyName | app/code/Zeltero/B2B/Model/Company.php:40-54 | Only `company_name` changes, and afterwards it reads back as the name written. The status and the id stay as they were. |
| CompanyModel.Company.SetStatus | app/code/Zeltero/B2B/Model/Company.php:61-75 | Only `status` changes, and afterwards it reads back as the value written. The name and the id stay as they were. |
| CompanyModel.Company.Approve | app/code/Zeltero/B2B/Model/Company.php:92-95 | Approval works from any state, with no guard. Afterwards the company is approved and only the status has changed. |
| CompanyModel.Company.Reject | app/code/Zeltero/B2B/Model/Company.php:102-105 | Rejection works from any state. Afterwards the company is not approved and its status is rejected. |
| CompanyModel.IsApprovedMeansApproved | app/code/Zeltero/B2B/Model/Company.php:82-85 | `isApproved` holds exactly when the stored status parses as approved. A missing status or any other string is not approved. |
| CompanyModel.StatusWritesOverwrite | app/code/Zeltero/B2B/Model/Company.php:92-105 | Approving or rejecting twice gives the same data as doing it once. Of two status writes in a row, the later one decides. |
| Storage.CompanyTable.Load | app/code/Zeltero/B2B/Controller/Adminhtml/Company/Approve.php:48 | Loading gives a fresh object. It holds the row and its key when the key has a row, and it has no id and no data otherwise. |
| Storage.CompanyTable.Save | app/code/Zeltero/B2B/Model/ResourceModel/Company.php:16-19 | Saving an object that has an id rewrites that row. Saving one without an id inserts it under a fresh key, which the object then carries. |
| Storage.CompanyTable.Delete | app/code/Zeltero/B2B/Controller/Adminhtml/Company/Delete.php:55 | Deleting removes exactly the row of the object's id, and no other row. |
| CompanyRegister.InitialStatus | app/code/Zeltero/B2B/Controller/Company/Register.php:69-80 | A registration starts approved exactly when `auto_approve` is truthy, and pending otherwise. It never starts rejected. |
| CompanyRegister.RegisteredFieldsContents | app/code/Zeltero/B2B/Controller/Company/Register.php:63-80 | Every posted field is stored unchanged, except that `status` is always the initial status. A posted status is overwritten. |
| CompanyRegister.Register | app/code/Zeltero/B2B/Controller/Company/Register.php:54-93 | A non-POST request changes nothing. A failed save changes no row and queues one error carrying the exception's message. Otherwise the registration is inserted under a fresh key and the matching confirmation is queued. Every path redirects to the registration page. |
| AdminCompany.Approve | app/code/Zeltero/B2B/Controller/Adminhtml/Company/Approve.php:37-63 | A falsy id, a failed load, an unknown id, a row whose key is the falsy id 0, or a failed save leaves the table as it was and queues exactly one matching error. Otherwise only the named row's status becomes approved, and a success message is queued. Every path redirects to the grid. |
| AdminCompany.Delete | app/code/Zeltero/B2B/Controller/Adminhtml/Company/Delete.php:37-63 | The same guards and errors as Approve, including the row keyed 0 counting as not found. Otherwise exactly the named row is removed and success is queued. Every path redirects to the grid. |
| CompanyActions.PrepareDataSource | app/code/Zeltero/B2B/Ui/Component/Listing/Column/CompanyActions.php:47-92 | A data source without `data.items` comes back unchanged. Otherwise the rows keep their number and order, and each row is rewritten on its own. |
| CompanyActions.RowWithoutIdUnchanged | app/code/Zeltero/B2B/Ui/Component/Listing/Column/CompanyActions.php:51 | A row whose `company_id` is unset or null is left untouched. |
| CompanyActions.OnlyActionsColumnWritten | app/code/Zeltero/B2B/Ui/Component/Listing/Column/CompanyActions.php:51-86 | For any column name, an identified row changes only in the actions column. That column holds at least two actions, first Edit and last Delete. |
| CompanyActions.IdentifiedRowActions | app/code/Zeltero/B2B/Ui/Component/Listing/Column/CompanyActions.php:14-86 | The actions cell is exactly Edit, then Approve only for a pending row, then Delete. Each action links its own route with the row's id, and Approve and Delete carry their confirmations. |
| CompanyActions.ApproveIffPending | app/code/Zeltero/B2B/Ui/Component/Listing/Column/CompanyActions.php:62-74 | An approve action is offered exactly when the row's status is the string `pending`. |
| CompanyActions.StatusColumnHidesApprove | app/code/Zeltero/B2B/Ui/Component/Listing/Column/CompanyActions.php:52-74 | When the actions column is named `status`, the Edit write replaces the status before it is read. The row then gets only Edit and Delete. |
| ErpExport.IsEnabled | app/code/Zeltero/B2B/Service/ErpExport.php:207-213 | The `(bool)` cast of the flag: an unset flag, `""` and `"0"` switch the export off, and every other string switches it on. |
| ErpExport.ExportFormat | app/code/Zeltero/B2B/Service/ErpExport.php:220-226 | A falsy configured format falls back to `csv`. The format returned is never falsy. |
| ErpExport.ExportPath | app/code/Zeltero/B2B/Service/ErpExport.php:233-239 | A falsy configured path falls back to `b2b/erp/export`. The path returned is never falsy. |
| ErpExport.TargetPath | app/code/Zeltero/B2B/Service/ErpExport.php:53 | The file sits under the configured path. Its name is the order's increment id, followed by the format as its extension. |
| ErpExport.TargetPathsDistinct | app/code/Zeltero/B2B/Service/ErpExport.php:53 | Under one configuration, orders with different increment ids get different files, so no export overwrites another order's file. |
| ErpExport.ItemsOf | app/code/Zeltero/B2B/Service/ErpExport.php:99-107 | There is one item entry per visible order item, in the same order. |
| ErpExport.PrepareOrderData | app/code/Zeltero/B2B/Service/ErpExport.php:86-123 | The record carries the order's header fields and one entry per visible item, in order. It has a billing address exactly when the order has one, with the street lines joined by ", ". |
| ErpExport.ItemRows | app/code/Zeltero/B2B/Service/ErpExport.php:148-157 | There is one quoted CSV row per item, in item order. |
| ErpExport.CsvLines | app/code/Zeltero/B2B/Service/ErpExport.php:131-160 | The CSV has 5 + n lines: the order header, the order values, a blank line, the items title, the item header, and then one row per item. |
| ErpExport.GenerateCsv | app/code/Zeltero/B2B/Service/ErpExport.php:131-160 | The text the method builds is exactly those lines, each one ended by a newline. |
| ErpExport.SplitUnlines | app/code/Zeltero/B2B/Service/ErpExport.php:131-160 | Splitting the joined text at newlines gives back the lines, provided no line contains a newline. |
| ErpExport.CsvLineStructure | app/code/Zeltero/B2B/Service/ErpExport.php:131-160 | When no value contains a newline, the generated CSV splits back into exactly its 5 + n lines. |
| ErpExport.UnescapedValuesCollide | app/code/Zeltero/B2B/Service/ErpExport.php:134-157 | Values are quoted but embedded quotes are not escaped. So the single value `a","b` gives the same row as the two values `a` and `b`, and the CSV cannot always be read back. |
| ErpExport.ExportOrder | app/code/Zeltero/B2B/Service/ErpExport.php:43-78 | A path is returned exactly when the export is enabled, the format is known and no step throws. On every other path nothing is written. On success the content for the chosen format is written to the returned target path, `<path>/<increment id>.<format>`. |
| QuickOrder.BatchAccounting | app/code/Zeltero/B2B/Controller/QuickOrder/AddToCart.php:78-100 | Every request entry is exactly one of: added, reported in exactly one error, or skipped. |
| QuickOrder.AddedIffSomeItemAdded | app/code/Zeltero/B2B/Controller/QuickOrder/AddToCart.php:94-110 | Something is added to the cart exactly when some entry is added. |
| QuickOrder.AddedLinesSplit | app/code/Zeltero/B2B/Controller/QuickOrder/AddToCart.php:78-100 | The lines added by a batch are those of its first part followed by those of the rest, so the request's order is kept. |
| QuickOrder.ErrorsSplit | app/code/Zeltero/B2B/Controller/QuickOrder/AddToCart.php:78-100 | The errors of a batch are those of its first part followed by those of the rest. A failing entry does not stop the entries after it. |
| QuickOrder.BatchResponse | app/code/Zeltero/B2B/Controller/QuickOrder/AddToCart.php:104-114 | The response is successful exactly when the count is positive, whatever the errors. It carries the count and the errors. |
| QuickOrder.Execute | app/code/Zeltero/B2B/Controller/QuickOrder/AddToCart.php:62-122 | A guest gets the login response and the cart is not touched. Otherwise the cart gains the batch's lines in request order and is saved once. The response is the batch response, or the crash response when the save throws. |
| DefaultCustomerGroups.UnderscoresReplaced | app/code/Zeltero/B2B/Setup/Patch/Data/CreateDefaultB2BCustomerGroups.php:81 | Every underscore becomes a space, and every other character is kept in place. |
| DefaultCustomerGroups.UcWordsPointwise | app/code/Zeltero/B2B/Setup/Patch/Data/CreateDefaultB2BCustomerGroups.php:81 | `ucwords` upper-cases exactly the characters at the start of the string or after a whitespace delimiter, and keeps every other character. |
| DefaultCustomerGroups.SavedCodeHasNoUnderscore | app/code/Zeltero/B2B/Setup/Patch/Data/CreateDefaultB2BCustomerGroups.php:68-81 | The saved code never contains `_`. So the saved code differs from every raw code that contains one. |
| DefaultCustomerGroups.BronzeCode | app/code/Zeltero/B2B/Setup/Patch/Data/CreateDefaultB2BCustomerGroups.php:52-55 | `b2b_wholesale_bronze` is saved as `B2b Wholesale Bronze`. |
| DefaultCustomerGroups.SilverCode | app/code/Zeltero/B2B/Setup/Patch/Data/CreateDefaultB2BCustomerGroups.php:56-59 | `b2b_wholesale_silver` is saved as `B2b Wholesale Silver`. |
| DefaultCustomerGroups.GoldCode | app/code/Zeltero/B2B/Setup/Patch/Data/CreateDefaultB2BCustomerGroups.php:60-63 | `b2b_wholesale_gold` is saved as `B2b Wholesale Gold`. |
| DefaultCustomerGroups.TaxClassId | app/code/Zeltero/B2B/Setup/Patch/Data/CreateDefaultB2BCustomerGroups.php:101-109 | A found nonzero tax class id is kept. A missing or zero id falls back to 3, so the stored id is never falsy. |
| DefaultCustomerGroups.Apply | app/code/Zeltero/B2B/Setup/Patch/Data/CreateDefaultB2BCustomerGroups.php:48-93 | The repository ends as the run of the three default iterations from its old contents. |
| DefaultCustomerGroups.RunAppendsCreated | app/code/Zeltero/B2B/Setup/Patch/Data/CreateDefaultB2BCustomerGroups.php:65-90 | When the wanted codes are distinct, a run keeps the existing groups and appends the created ones, in the order the codes are listed. |
| DefaultCustomerGroups.ApplyAppendsInOrder | app/code/Zeltero/B2B/Setup/Patch/Data/CreateDefaultB2BCustomerGroups.php:65-90 | The patch appends one group for each default code that did not exist and did not fail, in the order bronze, silver, gold. |
| DefaultCustomerGroups.CreatedFromSpecs | app/code/Zeltero/B2B/Setup/Patch/Data/CreateDefaultB2BCustomerGroups.php:77-84 | Every created group is the new group of one of the wanted codes. Its code is transformed and its tax class id comes from the lookup or the fallback. |
| DefaultCustomerGroups.RerunCreatesAgain | app/code/Zeltero/B2B/Setup/Patch/Data/CreateDefaultB2BCustomerGroups.php:68-84 | The patch searches for the raw code but saves the transformed one. After a first run with no existing code and no failure, none of the raw codes is found. A second run, with failures of its own, therefore skips nothing at the search and appends exactly what its failures allow. When none of them fails, that is all three groups again. |

## Left out

- `generateXml` and `generateJson` in ErpExport.php: they are function parameters of `ExportOrder`, so their output format is not modelled.
- `ErpExport.ExportOrder`: `getAbsolutePath` is not modelled. The path is the path relative to `var/`, and the write is all or nothing, so a partial write is not modelled.
- `ErpExport.ExportOrder`: the exception's message is discarded, since the catch only returns false. The model does not carry it either.
- Store configuration (`ScopeConfigInterface`), the request, the session and the customer session: their values are inputs.
- `Php.ParseId`: an id that is not all digits counts as unknown. The database's lenient casting of such an id to a number is not modelled.
- `DefaultCustomerGroups.HasCode`: the search compares codes exactly. The database collation may compare them case-insensitively, and that is not modelled. It does not affect the default codes, which contain `_` and never match the saved codes.
- `DefaultCustomerGroups.Apply`: the `fails` oracle stands for any exception within one iteration. That includes the repository refusing a duplicate transformed code.
- `DefaultCustomerGroups.TaxClassId`: the lookup's id is a `nat` or absent. A string id such as `"0"` and its truthiness are folded into that.
- The repository of customer groups is a sequence in save order, not a keyed table.
- `CompanyRegister.Register`: a posted `company_id` (mass assignment onto an existing row) is not modelled, so registration always inserts a new row.
- `Storage.CompanyTable.Save`: a row keeps the object's whole data array, so every posted key is stored. The ORM writes only the columns of `zeltero_b2b_company` (Model/ResourceModel/Company.php:18), and that filtering is not modelled.
- `Storage.CompanyTable.Save`: an object whose id has no row is inserted under that id. The ORM's update of an absent key would change nothing. No modelled controller reaches this case, because Approve saves only a loaded row and Register saves only a new object.
- `__()` translation: each phrase is its English text.
- `ErpExport.PrepareOrderData`: `getAllVisibleItems` is taken as given, as the sequence of visible items.
- `QuickOrder.Execute`: an `addProduct` that throws is taken to leave the cart unchanged.
- `QuickOrder.Execute`: the entries and the params are taken to be arrays.
- `QuickOrder.Execute`: the JSON encoding of the response is not modelled.
- `QuickOrder.Execute`: an exception raised before the loop is not modelled.
- `sprintf` with `%s` on null prints the empty string; the model's record fields are strings.
- Edit.php, OrderSaveAfter.php, both payment methods, the option sources, the collection and registration.php are not part of this model. None of them is one of the core operations.
- Concurrency between requests and the database transaction are not modelled.
