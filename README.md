# Form builder designer, modelled in Dafny

This project models the form builder's designer: the document it edits, and the code that edits that document.

A form is an ordered list of element instances `{id, type, extraAttributes}`:

- Each `type` is one of 18 kinds.
- A two-column container holds a `leftColumn` and a `rightColumn` list inside its attribute bag.

The model covers the following parts:

- **The designer store** (`DesignerContext`). It holds the root list, the selection, the theme, the multi-page flag, the pages and the current page index. It offers insert-at-index (`splice`), remove-by-id (`filter`) and replace-by-id (`findIndex` plus an indexed write). Each of these works on the root list, or on the current page in multi-page mode.
  - The store is the class `DesignerStore`. Its methods are proved against the pure functions `AddSpec`, `RemoveSpec` and `UpdateSpec`.
  - Queued updaters (`StoreCall`) are flushed in call order.
- **The drop reconciler** `onDragEnd` (`Designer`). Its priority-ordered case analysis over (drag source, drop target) becomes three things:
  - direct writes to the root list;
  - queued store calls;
  - an outcome (returned, or threw "element not found" or a `TypeError`).

  `HandleDrop` (with `QueueDrop` for the branches that only queue calls and `HandleColumnDrop` for the container branch) and `OnDragEnd` are methods proved against the pure `PlanDrop` and `Reconcile`. The reorder case and the column drops have their own modules (`Reordering`, `ColumnDropProperties`, `DropProperties`).
- **Load-time reconstruction** (`FormBuilderLoad`). It rebuilds the stored list through the registry. It recurses exactly one level into container columns, defaults an empty `gap` to "4", and throws on unknown kinds or missing columns. The loading effect is a `FormBuilderView` class with a readiness flag.
- **The registry and the field kinds**:
  - `ElementModel`, `FormElementsRegistry`;
  - `TitleFieldFormElement`, `SubTitleFieldFormElement`, `BulletedListFieldFormElement`;
  - `TwoColumnLayoutFieldFormElement`, `RatingScaleFormElement`;
  - `ImageFormElement`, `ImageUploadFieldFormElement`, `DualImageUploadFormElement`.

  Each covers its kind's construct defaults, its validate predicate, its accepted properties and its applyChanges.
- **Small pure helpers**:
  - rating-colour bucketing (`RatingColors`) over the colour tables (`ColorSchemes`);
  - aspect-preserving down-scaling over exact reals (`ImageScaling`);
  - the page-list settings (`FormSettings`);
  - preview page navigation (`PreviewDialog`);
  - the embed style string's escaper (`EmbedStyles`).

Modelling conventions:

- JSON values are the datatype `Value`.
- An element's attribute bag is `Option<map<string, Value>>`, so a missing bag is `None`.
- A hole in the pages array is `None`.
- `JSON.parse` and `JSON.stringify` are the identity on these values.
- Ids come from a fresh-id parameter.

## Model

| member | source | states |
|---|---|---|
| ElementModel.ParseKind | src/components/FormElements.tsx:20-38 | a stored type string resolves to a kind only if that kind's tag is exactly the string |
| ElementModel.ParseKindName | src/components/FormElements.tsx:20-38 | every kind's tag resolves back to that kind |
| ElementModel.KindNameInjective | src/components/FormElements.tsx:20-38 | two kinds have the same tag iff they are the same kind |
| ElementModel.AllKindsClosed | src/components/FormElements.tsx:20-38 | the kind set is closed: every kind is listed, and the list has exactly 18 distinct tags |
| ElementModel.IndexOf | src/components/Designer.tsx:51 | `findIndex` by id: the first position holding the id, or -1 exactly when no entry has it |
| ElementModel.IndexOfUnique | src/components/Designer.tsx:132-134 | with unique ids, the lookup of an entry's id finds that entry's own position |
| FormElementsRegistry.Construct | src/components/FormElements.tsx:45 | `construct(id)` gives an instance with that id, the kind's type tag and an attribute bag |
| FormElementsRegistry.RegistryWellFormed | src/components/FormElements.tsx:76-99 | the registry is total over the 18 kinds, each entry's kind is its key, and each entry constructs the requested id with its own type |
| FormElementsRegistry.StoredTypeResolves | src/components/FormElements.tsx:70-99 | a stored type that names a kind finds a registry entry whose type is that name |
| DragData.Offset | src/components/Designer.tsx:113-116 | the insertion offset is 0 for the top half and 1 for the bottom half |
| DragData.WrapperTargets | src/components/Designer.tsx:198-225 | each canvas element offers exactly two targets, its top and bottom halves, both carrying its id and type |
| DragData.WrapperDraggable | src/components/Designer.tsx:198-225 | a canvas element drags as a designer element carrying its own id |
| DesignerContext.SpliceIndex | src/context/DesignerContext.tsx:83-93 | `splice`'s start index: kept in range, clamped to the length above it, counted from the end when negative and floored at 0 |
| DesignerContext.Insert | src/context/DesignerContext.tsx:83-93 | inserting at k gives one more entry, the new one at k, with the entries before k unchanged and those after k shifted by one |
| DesignerContext.RemoveIdMembers | src/context/DesignerContext.tsx:106-112 | the filter keeps exactly the entries whose id differs, and nothing else |
| DesignerContext.RemoveIdAbsent | src/context/DesignerContext.tsx:106-112 | removing an id that no entry has leaves the list unchanged |
| DesignerContext.RemoveIdUnique | src/context/DesignerContext.tsx:106-112 | with unique ids, removing an entry's id cuts exactly that entry out |
| DesignerContext.ReplaceFirst | src/context/DesignerContext.tsx:121-124 | the first entry with the id is replaced, every other entry and the length are kept, and an absent id changes nothing |
| DesignerContext.SetAt | src/context/DesignerContext.tsx:72-84 | writing pages[k] past the end pads the array with holes, and every other index is unchanged |
| DesignerContext.AddSpec | src/context/DesignerContext.tsx:69-97 | addElement splices into the root list in single-page mode; in multi-page mode it splices into the current page, first making an empty 'tabs' page with numbers shown, and touches nothing else |
| DesignerContext.RemoveSpec | src/context/DesignerContext.tsx:99-114 | removeElement filters the root list or the current page (a missing page is a no-op), and leaves the other pages, the selection and the theme alone |
| DesignerContext.UpdateSpec | src/context/DesignerContext.tsx:116-141 | updateElement replaces the first entry with the id in the root list or on the current page; a missing page changes nothing |
| DesignerContext.UpdateAbsentIsNoOp | src/context/DesignerContext.tsx:122-137 | updating an absent id is a no-op in both modes; the single-page write to index -1 leaves the entries unchanged |
| DesignerContext.RemoveNeverLooksIntoColumns | src/context/DesignerContext.tsx:112 | removing an id that is on no top-level entry changes nothing, even when a container column holds it |
| DesignerContext.MultiPageIsolation | src/context/DesignerContext.tsx:70-132 | in multi-page mode any sequence of store calls changes only pages[currentPage]: the root list and all other pages are unchanged (the drop handler's own direct write to the root is not a store call) |
| DesignerContext.SinglePageKeepsPages | src/context/DesignerContext.tsx:90-140 | in single-page mode any sequence of store calls leaves the pages and the other fields untouched |
| DesignerContext.DesignerStore.constructor | src/context/DesignerContext.tsx:46-51 | the initial state is an empty list, no selection, theme "default", single-page mode, no pages and page 0 |
| DesignerContext.DesignerStore.AddElement | src/context/DesignerContext.tsx:69-97 | the store's new state is AddSpec of the old one |
| DesignerContext.DesignerStore.RemoveElement | src/context/DesignerContext.tsx:99-114 | the store's new state is RemoveSpec of the old one; the selection is never cleared |
| DesignerContext.DesignerStore.UpdateElement | src/context/DesignerContext.tsx:116-141 | the store's new state is UpdateSpec of the old one |
| DesignerContext.DesignerStore.Flush | src/context/DesignerContext.tsx:69-141 | queued updaters are applied in call order |
| DesignerContext.DesignerStore.SetElements | src/context/DesignerContext.tsx:46 | the setter replaces the root list only |
| DesignerContext.DesignerStore.SetSelectedElement | src/context/DesignerContext.tsx:47 | the setter replaces the selection only |
| DesignerContext.DesignerStore.SetTheme | src/context/DesignerContext.tsx:48 | the setter replaces the theme only |
| DesignerContext.DesignerStore.SetIsMultiPage | src/context/DesignerContext.tsx:54-57 | the setter replaces the mode flag only |
| DesignerContext.DesignerStore.SetPages | src/context/DesignerContext.tsx:59-62 | the setter replaces the pages only |
| DesignerContext.DesignerStore.SetCurrentPage | src/context/DesignerContext.tsx:64-67 | the setter replaces the page index only |
| Designer.FilterOutId | src/components/Designer.tsx:71-73 | the column filter keeps exactly the entries that are not records with the id; a `null` entry makes it throw |
| Designer.FilterColumn | src/components/Designer.tsx:70-73 | only an array column can be filtered |
| Designer.SpreadOrEmpty | src/components/Designer.tsx:83 | `[...(column \|\| [])]`: a falsy column is empty, an array gives its entries, a string gives its characters, and any other value throws |
| Designer.RecordIdsMember | src/components/Designer.tsx:71-73 | an id is among a column's record ids iff some record in the column has it |
| Designer.HandleColumnDrop | src/components/Designer.tsx:45-90 | the container branch writes the root list and queues the calls and the outcome of the column-drop plan, and leaves the rest of the store alone |
| Designer.QueueDrop | src/components/Designer.tsx:35-149 | outside the column branch the handler writes nothing to the root list and queues exactly the calls and outcome of the drop plan: an add at the end, an add before or after the target, a removal then an add, or nothing (with `element not found` when an id is missing) |
| Designer.HandleDrop | src/components/Designer.tsx:24-150 | the handler's direct writes, queued calls and outcome are those of the drop plan for the old root list |
| Designer.OnDragEnd | src/components/Designer.tsx:24-150 | running the handler and then flushing the queued updaters gives exactly `Reconcile` of the old state |
| DropProperties.NoTargetNoChange | src/components/Designer.tsx:26-128 | no active item, no target, or a canvas element dropped on the bare canvas leaves the store unchanged |
| DropProperties.PaletteOnCanvasAppends | src/components/Designer.tsx:36-41 | a palette item dropped on the canvas appends one fresh element of the dragged kind at the end; the earlier entries are unchanged |
| DropProperties.PaletteOnCanvasMultiPage | src/context/DesignerContext.tsx:70-89 | in multi-page mode the append uses the root list's length as the index into the current page, clamped by splice; the root list is unchanged |
| DropProperties.PaletteOnHalfInserts | src/components/Designer.tsx:102-119 | a palette item dropped on a half of the root entry at i is inserted at i (top) or i+1 (bottom); an unknown target throws "element not found" and changes nothing |
| DropProperties.MultiPageLooksUpRoot | src/components/Designer.tsx:108-111 | in multi-page mode the target is still looked up in the root list, so a target only on the page throws |
| DropProperties.CanvasOnHalfMissing | src/components/Designer.tsx:132-138 | a missing dragged or target id throws "element not found" before anything changes |
| DropProperties.CanvasOnHalfMoves | src/components/Designer.tsx:128-149 | a canvas element dropped on a half gives `Reorder`: remove it, then insert at the target's old index plus the half's offset |
| ColumnDropProperties.ColumnParentMissing | src/components/Designer.tsx:51-52 | a column drop whose container is not in the root list changes nothing |
| ColumnDropProperties.ColumnSourceMissing | src/components/Designer.tsx:60-62 | a dragged canvas element not in the root list makes a column drop change nothing |
| ColumnDropProperties.PaletteIntoColumn | src/components/Designer.tsx:75-88 | a palette item is appended to the chosen column, the other column and all other root entries are unchanged, and a spread of a non-iterable column throws |
| ColumnDropProperties.CanvasColumnPlan | src/components/Designer.tsx:58-88 | moving a canvas element writes the updated container into the root list and queues remove(active) then update(container) |
| ColumnDropProperties.CanvasIntoColumn | src/components/Designer.tsx:58-88 | the resulting root list is the one with the updated container written in, then the dragged id removed |
| ColumnDropProperties.ColumnMoveEffect | src/components/Designer.tsx:60-88 | after the move the id is gone from the root list, is filtered from the other column, and occurs once more in the chosen column |
| ColumnDropProperties.MovedIntoColumns | src/components/Designer.tsx:69-83 | the updated container keeps its id, the other column loses the id, and the chosen column ends with the moved element |
| ColumnDropProperties.SelfColumnDrop | src/components/Designer.tsx:60-87 | dropping a container into its own column removes it from the root list, because there is no self-drop guard |
| ColumnDropProperties.WriteThenUpdate | src/components/Designer.tsx:86-87 | in single-page mode the queued update after the direct write changes nothing more |
| ColumnDropProperties.PaletteIntoColumnMultiPage | src/components/Designer.tsx:75-88 | in multi-page mode the container is looked up and rewritten in the root list, while the queued update acts on the current page only, changing it only if it holds the container's id; the no-container and throwing cases are as in single-page mode |
| ColumnDropProperties.CanvasIntoColumnMultiPage | src/components/Designer.tsx:58-88 | in multi-page mode a moved element stays at its root position and is also appended to the chosen column of the rewritten root container; the queued removal and update act on the current page, which loses every entry with the moved id and has its first entry with the container's id replaced |
| ColumnDropProperties.MultiPageColumnDropWritesRoot | src/components/Designer.tsx:84-87 | the root list is not isolated from a whole drop gesture in multi-page mode: a palette drop into a root container's column changes the root list and leaves an empty page unchanged |
| Reordering.ReorderIs | src/components/Designer.tsx:128-149 | with unique ids, a reorder is "cut the dragged entry out, insert it at the clamped target index plus offset" |
| Reordering.ReorderFirstBelowLast | src/components/Designer.tsx:143-148 | [A,B,C] with A dropped on C's bottom gives [B,C,A] |
| Reordering.ReorderLastAboveFirst | src/components/Designer.tsx:143-148 | [A,B,C] with C dropped on A's top gives [C,A,B] |
| Reordering.ReorderFirstAboveSecond | src/components/Designer.tsx:143-148 | [A,B,C] with A dropped on B's top gives [B,A,C]: A lands below B |
| Reordering.ReorderTopLandsBelow | src/components/Designer.tsx:134-148 | whenever the dragged entry precedes the target, a top-half drop puts it just after the target |
| Reordering.ReorderPermutes | src/components/Designer.tsx:141-148 | with unique ids a reorder is a permutation of the entries and of their ids |
| Reordering.SelfDrop | src/components/Designer.tsx:128-149 | a top-half self-drop leaves the list unchanged; a bottom-half self-drop moves a non-last entry one place later |
| Reordering.IntendedMoveAdjacent | src/components/Designer.tsx:143-148 | the corrected move (target index taken after removal) keeps the entries and unique ids, and puts the dragged entry right above or below the target |
| Reordering.IntendedAgreesAbove | src/components/Designer.tsx:134-148 | when the dragged entry comes after the target, the written and the corrected reorder agree |
| Reordering.IntendedFirstAboveSecond | src/components/Designer.tsx:143-148 | with the correction, [A,B,C] with A dropped on B's top stays [A,B,C] |
| TwoColumnLayoutFieldFormElement.Construct | src/components/field/TwoColumnLayoutField.tsx:47-55 | a new container has the id, the container type, gap "4" and empty left and right columns |
| TwoColumnLayoutFieldFormElement.Validate | src/components/field/TwoColumnLayoutField.tsx:63 | validate is always true |
| TwoColumnLayoutFieldFormElement.ColumnTargets | src/components/field/TwoColumnLayoutField.tsx:76-92 | there are two column targets, "left" then "right", each carrying the container's own id |
| TwoColumnLayoutFieldFormElement.SameRenderIgnoresOnlyType | src/components/field/TwoColumnLayoutField.tsx:40-41 | the memo comparator treats two renders as the same iff they differ at most in type |
| TwoColumnLayoutFieldFormElement.ApplyChanges | src/components/field/TwoColumnLayoutField.tsx:184-189 | keeps id and type, and the bag is exactly {gap, leftColumn, rightColumn}, with a missing column defaulting to [] |
| TitleFieldFormElement.Construct | src/components/field/TitleField.tsx:21-39 | a new title has the id, type "TitleField" and the defaults "Title", "h1", "center" |
| TitleFieldFormElement.DefaultsAccepted | src/components/field/TitleField.tsx:21-31 | the defaults satisfy the properties schema |
| TitleFieldFormElement.Validate | src/components/field/TitleField.tsx:48 | validate is always true |
| TitleFieldFormElement.ApplyChanges | src/components/field/TitleField.tsx:97-102 | keeps id and type, and the bag holds exactly the validated title, fontSize and alignment |
| SubTitleFieldFormElement.Construct | src/components/field/SubTitleField.tsx:20-38 | a new subtitle has the id, type "SubTitleField" and the defaults "Subtitle", "h2", "center" |
| SubTitleFieldFormElement.DefaultsAccepted | src/components/field/SubTitleField.tsx:20-30 | the defaults satisfy the properties schema |
| SubTitleFieldFormElement.Validate | src/components/field/SubTitleField.tsx:47 | validate is always true |
| SubTitleFieldFormElement.ApplyChanges | src/components/field/SubTitleField.tsx:96-101 | keeps id and type, and the bag holds exactly the validated subTitle, fontSize and alignment |
| BulletedListFieldFormElement.BulletStylesTable | src/components/field/BulletedListField.tsx:17-25 | there are seven distinct bullet styles, each mapped to its own glyph, and no other style has a glyph |
| BulletedListFieldFormElement.Construct | src/components/field/BulletedListField.tsx:37-55 | a new list has the id, its type, three items, bullet style "disc" and font size "h3" |
| BulletedListFieldFormElement.DefaultsAccepted | src/components/field/BulletedListField.tsx:37-46 | the defaults satisfy the properties schema |
| BulletedListFieldFormElement.Validate | src/components/field/BulletedListField.tsx:63 | validate is always true |
| BulletedListFieldFormElement.ApplyChanges | src/components/field/BulletedListField.tsx:125-130 | keeps id and type, and the bag holds exactly the validated items, bulletStyle and fontSize |
| BulletedListFieldFormElement.SplitJoin | src/components/field/BulletedListField.tsx:71 | `split('\n')` gives pieces without newlines that join back to the original text |
| BulletedListFieldFormElement.ListItemsAreLines | src/components/field/BulletedListField.tsx:71 | the rendered items are the non-blank lines: no more items than lines, and each item is a non-blank line without a newline |
| BulletedListFieldFormElement.DropBlankAppend | src/components/field/BulletedListField.tsx:71 | the filter keeps order: filtering a concatenation is the concatenation of the filtered parts |
| BulletedListFieldFormElement.DefaultItems | src/components/field/BulletedListField.tsx:38-71 | the default items render as exactly "Item 1", "Item 2", "Item 3" |
| BulletedListFieldFormElement.ThreeLines | src/components/field/BulletedListField.tsx:71 | three lines that do not start with whitespace render as exactly those three items, in order |
| RatingScaleFormElement.Construct | src/components/field/RatingScale/index.tsx:9-25 | a new rating scale has the id, type "RatingScaleField", scale 1..10, "blue", a null gradient and required false |
| RatingScaleFormElement.Validate | src/components/field/RatingScale/index.tsx:37-43 | a rating that is not required always validates; a required one validates iff the value is non-empty |
| RatingScaleFormElement.GradientValue | src/components/field/RatingScale/PropertiesComponent.tsx:24-66 | the gradient "none" is stored as null and any other name is kept |
| RatingScaleFormElement.DefaultsAccepted | src/components/field/RatingScale/PropertiesComponent.tsx:13-25 | the defaults satisfy the properties schema |
| RatingScaleFormElement.InvertedScaleAccepted | src/components/field/RatingScale/PropertiesComponent.tsx:21-22 | the schema accepts a maximum below the minimum |
| RatingScaleFormElement.ApplyChanges | src/components/field/RatingScale/PropertiesComponent.tsx:59-68 | keeps id and type, stores the validated values, and writes a "none" gradient as null |
| ColorSchemes.SolidSchemesTable | src/lib/colorSchemes.ts:1-40 | there are exactly five solid schemes, and each follows its colour's class pattern |
| ColorSchemes.ClassNames | src/lib/colorSchemes.ts:14-40 | the class pattern gives each solid colour's literal selected, hover and text classes |
| ColorSchemes.GradientSchemesTable | src/lib/colorSchemes.ts:60-85 | there are exactly three gradients, each with three colours whose start, middle and end labels use those colours in order |
| ColorSchemes.SatisfactionReversesSeverity | src/lib/colorSchemes.ts:61-76 | the satisfaction colours are the severity colours reversed |
| RatingColors.Bucket | src/components/field/RatingScale/useRatingColors.ts:22-38 | a position at most 0.33 picks colour 0, one above 0.66 picks colour 2, and any other picks colour 1 |
| RatingColors.GetButtonColors | src/components/field/RatingScale/useRatingColors.ts:16-44 | without a gradient the solid scheme's selected/hover pair; with one, the selected and hover classes of the bucket's colour |
| RatingColors.GetLabelColor | src/components/field/RatingScale/useRatingColors.ts:46-49 | the gradient label colour for the position, else the solid text colour |
| RatingColors.LabelColor | src/components/field/RatingScale/useRatingColors.ts:51-61 | the label colour is the text class of the bucket's colour, or the solid text colour |
| RatingColors.BucketMonotone | src/components/field/RatingScale/useRatingColors.ts:22-38 | for max > min the bucket never decreases as the value grows |
| RatingColors.InvertedScaleReverses | src/components/field/RatingScale/useRatingColors.ts:22-38 | on an inverted scale (max < min) the colour third never increases as the value grows |
| RatingColors.EndsOfScale | src/components/field/RatingScale/useRatingColors.ts:22-38 | the minimum value gets the first colour and the maximum the third, on an inverted scale as well |
| RatingColors.LabelMatchesButton | src/components/field/RatingScale/useRatingColors.ts:20-61 | under a gradient a value's label colour and button colours come from the same colour |
| ImageScaling.FitWithinSpec | src/components/field/ImageElement.tsx:169-180 | resizing only when a side exceeds the limit makes the longer side the limit, keeps both sides within it, and keeps the aspect ratio |
| ImageFormElement.Construct | src/components/field/ImageElement.tsx:46-61 | a new image has the id, type "ImageElement" and the defaults: no image, 200×200, ratio kept, centred, zero margins, limit 800 |
| ImageFormElement.DefaultsAccepted | src/components/field/ImageElement.tsx:29-61 | the defaults satisfy the properties schema |
| ImageFormElement.Validate | src/components/field/ImageElement.tsx:72 | validate is always true |
| ImageFormElement.ApplyChanges | src/components/field/ImageElement.tsx:152-160 | every field comes from the form except `base64Image`, which keeps its stored value |
| ImageFormElement.UploadImage | src/components/field/ImageElement.tsx:216-240 | a non-image file changes nothing; an image changes only `base64Image` |
| ImageFormElement.ResizeDimensions | src/components/field/ImageElement.tsx:169-180 | the step-by-step resize computes exactly FitWithin (the dual upload, src/components/field/DualImageUpload.tsx lines 143-154, runs the same steps) |
| ImageUploadFieldFormElement.Construct | src/components/field/ImageUploadField.tsx:19-28 | a new field has the id, its type and the module-level defaults, with a limit of 800 |
| ImageUploadFieldFormElement.ConstructSharesDefaults | src/components/field/ImageUploadField.tsx:430-434 | every construction gets the same default bag |
| ImageUploadFieldFormElement.DefaultsAccepted | src/components/field/ImageUploadField.tsx:19-45 | the defaults satisfy the properties schema |
| ImageUploadFieldFormElement.Validate | src/components/field/ImageUploadField.tsx:442-444 | validate is always true, even when required |
| ImageUploadFieldFormElement.ApplyChanges | src/components/field/ImageUploadField.tsx:248-263 | keeps id and type, and the bag is exactly the eight form fields |
| ImageUploadFieldFormElement.SelectFile | src/components/field/ImageUploadField.tsx:140-163 | a non-image file is ignored; an image sets the file name and the preview, and submits the encoded image |
| ImageUploadFieldFormElement.ResizeDimensions | src/components/field/ImageUploadField.tsx:98-109 | the resize, which assigns the height first, computes exactly FitWithin |
| DualImageUploadFormElement.Construct | src/components/field/DualImageUpload.tsx:43-56 | a new field has the id, type "DualImageUpload", required false and a limit of 800 |
| DualImageUploadFormElement.DefaultsAccepted | src/components/field/DualImageUpload.tsx:28-56 | the defaults satisfy the properties schema |
| DualImageUploadFormElement.ApplyChanges | src/components/field/DualImageUpload.tsx:305-311 | keeps id and type, and the bag is the validated form values |
| DualImageUploadFormElement.Validate | src/components/field/DualImageUpload.tsx:67-78 | a field that is not required always validates; a required one validates iff the value parses to a two-entry array of non-empty names |
| DualImageUploadFormElement.InitialNames | src/components/field/DualImageUpload.tsx:120-135 | the slot names start as two "No file chosen" placeholders, or as a stored array |
| DualImageUploadFormElement.SetName | src/components/field/DualImageUpload.tsx:184-208 | writing a slot's name changes only that slot |
| DualImageUploadFormElement.SelectFile | src/components/field/DualImageUpload.tsx:181-212 | a non-image file is ignored; an image sets its slot's name and submits the names |
| DualImageUploadFormElement.TwoSelectionsValidate | src/components/field/DualImageUpload.tsx:67-78 | choosing both images gives a submission that validates when required |
| DualImageUploadFormElement.OneSelectionStillValidates | src/components/field/DualImageUpload.tsx:120-212 | choosing one image already validates a required field, because the other slot submits its placeholder |
| DualImageUploadFormElement.ValidateIntended | src/components/field/DualImageUpload.tsx:67-78 | the corrected check also refuses a placeholder name |
| DualImageUploadFormElement.IntendedNeedsBothFiles | src/components/field/DualImageUpload.tsx:67-78 | under the corrected check one selection does not validate and two do |
| FormBuilderLoad.SpreadIsConstruct | src/components/FormBuilder.tsx:89-106 | `{...construct(id), extraAttributes}` is the constructed instance with the stored bag |
| FormBuilderLoad.RebuildEntry | src/components/FormBuilder.tsx:86-98 | a column entry rebuilds iff its type is known, and it then comes back unchanged |
| FormBuilderLoad.RebuildColumn | src/components/FormBuilder.tsx:86-98 | a column rebuilds iff every entry does, and keeps its length, order and entries |
| FormBuilderLoad.RebuildBag | src/components/FormBuilder.tsx:83-99 | the bag rebuilds iff both columns are arrays of loadable entries; other keys carry over, and a falsy gap becomes "4" |
| FormBuilderLoad.RebuildContainer | src/components/FormBuilder.tsx:73-101 | a container rebuilds iff it has a bag that rebuilds, keeping its id and type |
| FormBuilderLoad.RebuildElement | src/components/FormBuilder.tsx:70-108 | an element rebuilds iff it is loadable, keeping its id and type; a non-container keeps its stored bag verbatim |
| FormBuilderLoad.Reconstruct | src/components/FormBuilder.tsx:70-108 | the list rebuilds iff every element does, and keeps its length |
| FormBuilderLoad.ReconstructPointwise | src/components/FormBuilder.tsx:70-108 | the rebuilt list is the elements rebuilt one by one, in order |
| FormBuilderLoad.ReconstructKeepsShape | src/components/FormBuilder.tsx:70-108 | the rebuilt list keeps the length, order, ids and types, and non-containers are unchanged |
| FormBuilderLoad.ReconstructThrows | src/components/FormBuilder.tsx:74-105 | an unknown kind, or a container without a left or right column array, makes reconstruction throw |
| FormBuilderLoad.RebuildElementIdentity | src/components/FormBuilder.tsx:70-108 | an element rebuilds to itself iff it is loadable and, if a container, has a truthy gap |
| FormBuilderLoad.ReconstructRoundTrip | src/components/FormBuilder.tsx:67-108 | reloading a saved list gives it back unchanged iff every element is loadable and every container has a truthy gap |
| FormBuilderLoad.EmptyGapDefaulted | src/components/FormBuilder.tsx:85 | a container stored with gap "" comes back with gap "4" |
| FormBuilderLoad.OneLevelOnly | src/components/FormBuilder.tsx:86-98 | a container inside a column is not rebuilt: it keeps its stored bag even when it could not be loaded at the top level |
| FormBuilderLoad.ThemeOrDefault | src/components/FormBuilder.tsx:112 | a missing or empty stored theme becomes "default", and any other is kept |
| FormBuilderLoad.LoadEffect | src/components/FormBuilder.tsx:65-113 | a load succeeds iff every stored element is loadable; it then sets the root list to exactly the rebuilt list (so the stored list comes back iff every element is Stable), clears the selection, keeps a non-empty stored theme and sets "default" for a missing or empty one, and leaves the mode and the pages alone; a throw changes nothing |
| FormBuilderLoad.FormBuilderView.constructor | src/components/FormBuilder.tsx:66 | the view starts not ready |
| FormBuilderLoad.FormBuilderView.Load | src/components/FormBuilder.tsx:65-116 | once ready the effect does nothing; otherwise the store ends as LoadEffect describes |
| FormBuilderLoad.FormBuilderView.ReadyTimerFires | src/components/FormBuilder.tsx:114 | the timer marks the view ready |
| FormSettings.MultiPageChange | src/components/FormSettings.tsx:26-42 | the mode flag ends equal to the switch |
| FormSettings.MultiPageChangeEffect | src/components/FormSettings.tsx:30-42 | enabling replaces the pages by one empty page and selects it, whatever was there, without copying the root list; disabling keeps the pages |
| FormSettings.ReenableLosesPages | src/components/FormSettings.tsx:30-42 | turning the mode off and on empties the page that was being edited |
| DesignerContext.FirstNavigationType | src/components/FormSettings.tsx:61 | page 0's navigation style, or 'tabs' when there is no page 0; the preview (src/components/PreviewDialogBtn.tsx line 17) reads the same expression and uses this one definition |
| FormSettings.AddPage | src/components/FormSettings.tsx:57-64 | one empty page is appended with page 0's style and numbers shown, and the existing pages are unchanged |
| FormSettings.AddPagesShareStyle | src/components/FormSettings.tsx:57-64 | pages added one after another all share the first page's style |
| FormSettings.SetNavigationType | src/components/FormSettings.tsx:71-78 | the page count and the holes are kept |
| FormSettings.SetShowPageNumbers | src/components/FormSettings.tsx:85-92 | the page count and the holes are kept |
| FormSettings.SettingsTouchOneField | src/components/FormSettings.tsx:71-92 | each setting changes only its own field on every page; elements and the other field are unchanged |
| FormSettings.SettingsCommute | src/components/FormSettings.tsx:71-92 | the two settings commute, and each is idempotent |
| FormSettings.HandleMultiPageChange | src/components/FormSettings.tsx:26-42 | the store ends as MultiPageChange of its old state |
| FormSettings.HandleAddPage | src/components/FormSettings.tsx:57-64 | the store's pages become AddPage of the old pages, and nothing else changes |
| FormSettings.HandleNavigationTypeChange | src/components/FormSettings.tsx:71-78 | the store's pages become SetNavigationType of the old pages, and nothing else changes |
| FormSettings.HandleShowPageNumbersChange | src/components/FormSettings.tsx:85-92 | the store's pages become SetShowPageNumbers of the old pages, and nothing else changes |
| PreviewDialog.NextIndex | src/components/PreviewDialogBtn.tsx:20-24 | the index moves one on iff in multi-page mode and below the last page, and stays in range |
| PreviewDialog.PrevIndex | src/components/PreviewDialogBtn.tsx:26-30 | the index moves one back iff in multi-page mode and above 0, and never goes below 0 |
| PreviewDialog.ClickIndex | src/components/PreviewDialogBtn.tsx:32-36 | a click selects the page iff in multi-page mode and it is an existing page |
| PreviewDialog.RunStaysInRange | src/components/PreviewDialogBtn.tsx:15-36 | from 0, no run of gestures takes the index below 0 or to the page count or beyond |
| PreviewDialog.SinglePageRunIsNoOp | src/components/PreviewDialogBtn.tsx:20-36 | in single-page mode every gesture is a no-op |
| PreviewDialog.PreviewedElements | src/components/PreviewDialogBtn.tsx:126-136 | the root list in single-page mode; else the previewed page's elements, or nothing when there is no such page |
| PreviewDialog.PreviewShowsPageNumbers | src/components/PreviewDialogBtn.tsx:18 | page numbers are always shown |
| PreviewDialog.PreviewNavigator.constructor | src/components/PreviewDialogBtn.tsx:15 | the preview starts at page 0 |
| PreviewDialog.PreviewNavigator.HandleNextPage | src/components/PreviewDialogBtn.tsx:20-24 | the index becomes NextIndex of the old one |
| PreviewDialog.PreviewNavigator.HandlePrevPage | src/components/PreviewDialogBtn.tsx:26-30 | the index becomes PrevIndex of the old one |
| PreviewDialog.PreviewNavigator.HandlePageClick | src/components/PreviewDialogBtn.tsx:32-36 | the index becomes ClickIndex of the old one |
| PreviewDialog.PreviewNavigator.Previewed | src/components/PreviewDialogBtn.tsx:126-136 | the dialog shows PreviewedElements at its index |
| EmbedStyles.EscapeOnce | src/lib/styles/embed/index.ts:19-21 | the escaped text is longer by exactly the number of backslashes, backquotes and `$` |
| EmbedStyles.EscapeInOnePass | src/lib/styles/embed/index.ts:19-21 | the three global replaces, backslash first, escape each special character exactly once |
| EmbedStyles.UnescapeEscape | src/lib/styles/embed/index.ts:19-21 | unescaping the escaped text recovers it exactly |
| EmbedStyles.EscapedIsSafe | src/lib/styles/embed/index.ts:19-21 | escaped text has no unescaped backquote or `$` |
| EmbedStyles.AllStylesEscaped | src/lib/styles/embed/index.ts:7-21 | the style string is safe in a template literal, reads back as the five sections joined by newlines in their fixed order, and has the expected length |

## Left out

- The JSX rendering, the dnd-kit sensors and overlays, toasts, dialogs and the hooks plumbing are left out. Only the state changes they trigger are modelled.
- The browser image pipeline is left out: `Image`, the canvas, `toBlob`, `FileReader` and `URL.createObjectURL`. The encoded image is a parameter, and only the width/height arithmetic is kept, over exact reals, with no float rounding.
- `idGenerator` is not part of this model. A fresh element is a `created` parameter, and the proofs name the fresh id where it matters.
- `JSON.parse` and `JSON.stringify` are the identity on `Value`. The parse failure in the dual upload's validate is a `None` argument.
- Zod resolution is a predicate `Accepted` on a typed record. Each `applyChanges` requires it, because the form calls `applyChanges` only with schema-valid values.
- The source's `PageConfig` is `{elements, config: {navigationType, showPageNumbers}}`. The model flattens it into one record with three fields.
- Pages have no `undefined` entries distinct from holes. A missing page is `None`, and `map` skips it, so the settings transforms keep it missing. The source's `map` over an array whose entry is `undefined` would read `undefined.config` and throw.
- Aliasing is not modelled: attribute bags are values, not shared objects. The container branch assigns `parent.extraAttributes[...]` into a bag that the state entry still shares. The model writes the updated container into the root list, as the direct write to the root array does in both modes. A self-drop into a container's own column would build a cyclic bag in the source, and the model cannot represent that.
- The 10 kinds whose field files are not part of this model (text, paragraph, separator, spacer, number, text area, date, select, checkbox, picture select) construct with their id, their type and a placeholder empty bag. Their validate predicates are not modelled.
- RatingColors.GetButtonColors: assumes max != min. When max == min the source divides by zero and gets a NaN or infinite position, which exact reals cannot represent. The inverted scale (max < min), which the schema accepts, is modelled.
- RatingColors.LabelColor: assumes max != min, as for the buttons.
- The ready timeout is the method `FormBuilderView.ReadyTimerFires`. Clearing the timer on effect cleanup is not modelled.
- Saving (src/components/SaveFormBtn.tsx) is an async server call and is left out. The round-trip lemma models only its payload, which is the root list alone, even in multi-page mode.
- The constant CSS and class tables (src/lib/styles/embed/*.ts other than index.ts, src/components/field/utils/fontStyles.ts) are parameters of `GetAllStyles` or literal key lists.
- Server actions, the embed widget's DOM code and the unreferenced duplicate RatingScaleField.tsx are outside the modelled core.
- Concurrency and React batching are left out. Updaters run in call order on one thread.

## Findings

| source | as written | input that shows it | evidently intended | confidence | as-written member | corrected member |
|---|---|---|---|---|---|---|
| src/components/Designer.tsx:134-148 | the reorder inserts at the target's index taken before the dragged entry is removed | [A,B,C], drag A onto B's top half: the result is [B,A,C], so A lands below B | the dragged entry ends directly above (top) or below (bottom) the target | not executed | Reordering.ReorderFirstAboveSecond | Reordering.IntendedMoveAdjacent |
| src/components/field/DualImageUpload.tsx:67-78,120,181-212 | a required dual upload validates when both submitted names are non-empty, and an unchosen slot submits the placeholder "No file chosen" | required field, choose one image for slot 0: the value submitted is [name, "No file chosen"], which validates | a required field validates only when both images are chosen | not executed | DualImageUploadFormElement.OneSelectionStillValidates | DualImageUploadFormElement.IntendedNeedsBothFiles |
