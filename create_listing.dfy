/** The create/edit listing form (src/pages/protected/CreateListing.jsx): the form state, the
    category chosen when an existing listing is loaded for editing, and the payload the form
    submits. */
module CreateListing {

  import opened Common

  const NameKey: string := "name"
  const CategoryKey: string := "category"
  const PriceKey: string := "price"
  const ClosingDateKey: string := "closing_date"
  const DescKey: string := "desc"
  const FileTypeKey: string := "file_type"
  const SlugKey: string := "slug"
  const OtherCategory: string := "other"

  datatype Category = Category(name: string, slug: string)

  /** `categories.find(c => c.name === name)`: the index of the first match. */
  function FindCategory(categories: seq<Category>, name: Option<string>): (i: Option<nat>)
    ensures i.Some? ==> i.value < |categories| && Some(categories[i.value].name) == name &&
                        forall j :: 0 <= j < i.value ==> Some(categories[j].name) != name
    ensures i.None? ==> forall j :: 0 <= j < |categories| ==> Some(categories[j].name) != name
  {
    if categories == [] then None
    else if Some(categories[0].name) == name then Some(0)
    else match FindCategory(categories[1..], name) {
      case None => None
      case Some(k) => Some(k + 1)
    }
  }

  /** `listingCategory ? listingCategory.slug : 'other'`. */
  function CategorySlug(categories: seq<Category>, name: Option<string>): (slug: string)
    ensures (forall j :: 0 <= j < |categories| ==> Some(categories[j].name) != name) ==> slug == OtherCategory
    ensures forall j :: 0 <= j < |categories| && Some(categories[j].name) == name &&
                        (forall k :: 0 <= k < j ==> Some(categories[k].name) != name) ==>
              slug == categories[j].slug
  {
    var i := FindCategory(categories, name);
    if i.Some? then categories[i.value].slug else OtherCategory
  }

  /** With category names that are all different, the slug is that of the category carrying the
      listing's category name. */
  lemma {:induction false} CategorySlugOfUniqueName(categories: seq<Category>, j: int)
    requires 0 <= j < |categories|
    requires forall a, b :: 0 <= a < b < |categories| ==> categories[a].name != categories[b].name
    ensures CategorySlug(categories, Some(categories[j].name)) == categories[j].slug
  {
    var name := Some(categories[j].name);
    assert forall k :: 0 <= k < j ==> Some(categories[k].name) != name by {
      forall k | 0 <= k < j
        ensures Some(categories[k].name) != name
      {
        assert categories[k].name != categories[j].name;
      }
    }
  }

  /** `listingData.file`, `Null` when the key is absent. */
  function FileOf(data: map<string, FormValue>): FormValue
  {
    if FileKey in data then data[FileKey] else Null
  }

  /** Which request `submitHandler` dispatches. */
  datatype Request = UpdateListing(payload: map<string, FormValue>) | CreateListing(payload: map<string, FormValue>)

  class ListingForm {
    /** The component's `type` prop: set when the form edits an existing listing. */
    const editing: bool
    /** The `listingSlug` route parameter. */
    const listingSlug: Option<string>
    var listingData: map<string, FormValue>
    var notFound: bool
    /** `isLoading`: the page waits for the listing it edits. */
    var isLoading: bool
    /** `createLoading`: a submitted create or update has not settled yet. */
    var createLoading: bool

    /** `isLoading && !createLoading`: the page shows the spinner instead of the form. */
    predicate ShowsSpinner()
      reads this
    {
      isLoading && !createLoading
    }

    constructor (isEdit: bool, slug: Option<string>)
      ensures editing == isEdit && listingSlug == slug
      ensures listingData == map[NameKey := Text(""), CategoryKey := Text(""), PriceKey := Text(""),
                                 ClosingDateKey := Text(""), DescKey := Text(""), FileKey := Null,
                                 FileTypeKey := Null]
      ensures !notFound && isLoading && !createLoading
    {
      editing := isEdit;
      listingSlug := slug;
      listingData := map[NameKey := Text(""), CategoryKey := Text(""), PriceKey := Text(""),
                         ClosingDateKey := Text(""), DescKey := Text(""), FileKey := Null,
                         FileTypeKey := Null];
      notFound := false;
      isLoading := true;
      createLoading := false;
    }

    /** The mount effect without a `listingSlug`: the empty create form is shown at once (the
        categories it fetches only feed the category menu). With a slug the effect only
        dispatches the fetch, whose outcome arrives through `OnListingLoaded`,
        `OnCategoriesFetchFailed` or `OnListingFetchFailed`. */
    method OnMount()
      modifies this`isLoading, this`notFound
      ensures listingSlug.None? ==> !isLoading && !notFound && !ShowsSpinner()
      ensures listingSlug.Some? ==> isLoading == old(isLoading) && notFound == old(notFound)
    {
      if listingSlug.None? {
        notFound := false;
        isLoading := false;
      }
    }

    method HandleChange(name: string, value: string, files: Option<seq<File>>) returns (ok: bool)
      modifies this`listingData
      ensures ok == ChangedForm(old(listingData), name, value, files).Some?
      ensures ok ==> listingData == ChangedForm(old(listingData), name, value, files).value
      ensures !ok ==> listingData == old(listingData)
    {
      var r := ChangedForm(listingData, name, value, files);
      ok := r.Some?;
      if ok {
        listingData := r.value;
      }
    }

    /** The listing fetched for editing, with the categories: the form takes its name, price,
        description and closing time (already converted to the local `datetime-local` text), and
        the slug of its category, or `other`. */
    method OnListingLoaded(name: FormValue, categoryName: Option<string>, price: FormValue, closingLocal: string,
                           desc: FormValue, categories: seq<Category>)
      modifies this`listingData, this`notFound, this`isLoading
      ensures listingData == old(listingData)[NameKey := name]
                                             [CategoryKey := Text(CategorySlug(categories, categoryName))]
                                             [PriceKey := price][ClosingDateKey := Text(closingLocal)][DescKey := desc]
      ensures !notFound && !isLoading
    {
      var i := FindCategory(categories, categoryName);
      var slug := if i.Some? then categories[i.value].slug else OtherCategory;
      listingData := listingData[NameKey := name][CategoryKey := Text(slug)][PriceKey := price]
                                [ClosingDateKey := Text(closingLocal)][DescKey := desc];
      notFound := false;
      isLoading := false;
    }

    /** The listing arrived but the categories did not: the not-found flag is cleared and the
        page keeps waiting. */
    method OnCategoriesFetchFailed()
      modifies this`notFound
      ensures !notFound
    {
      notFound := false;
    }

    /** A fetch of the listing that did not succeed: a `404` shows the not-found page, anything
        else an empty form. */
    method OnListingFetchFailed(status404: bool)
      modifies this`notFound, this`isLoading
      ensures notFound == status404 && !isLoading
    {
      notFound := status404;
      isLoading := false;
    }

    /** `submitHandler` up to the dispatch. `closingIso` is `toISOString()` of the closing
        date, `None` when the date is invalid, in which case the call throws and nothing is
        sent. */
    method Submit(closingIso: Option<string>) returns (request: Option<Request>)
      modifies this`createLoading
      ensures createLoading && isLoading == old(isLoading) && !ShowsSpinner()
      ensures request.None? <==> closingIso.None?
      ensures request.Some? ==> (request.value.UpdateListing? <==> editing)
      ensures request.Some? ==>
                var p := request.value.payload;
                FileKey !in p &&
                (FileTypeKey in p <==> FileTypeKey in listingData && TruthyValue(FileOf(listingData))) &&
                (SlugKey in p <==> editing || SlugKey in listingData) &&
                (editing ==> p[SlugKey] == (if listingSlug.Some? then Text(listingSlug.value) else Null)) &&
                ClosingDateKey in p && p[ClosingDateKey] == Text(closingIso.value) &&
                (forall k :: k != FileKey && k != FileTypeKey && k != ClosingDateKey && k != SlugKey ==>
                   LookupValue(p, k) == LookupValue(listingData, k)) &&
                (FileTypeKey in p ==> p[FileTypeKey] == listingData[FileTypeKey]) &&
                (!editing && SlugKey in p ==> p[SlugKey] == listingData[SlugKey])
      ensures listingData == old(listingData)
    {
      createLoading := true;
      if closingIso.None? {
        return None;
      }
      var file := FileOf(listingData);
      var updated := listingData[ClosingDateKey := Text(closingIso.value)];
      updated := updated - {FileKey};
      if !TruthyValue(file) {
        updated := updated - {FileTypeKey};
      }
      if editing {
        updated := updated[SlugKey := if listingSlug.Some? then Text(listingSlug.value) else Null];
      }
      request := Some(if editing then UpdateListing(updated) else CreateListing(updated));
    }

    /** The submitted request settled. Every outcome clears `createLoading`, except a created or
        updated listing whose image upload rejects (`uploadRejected`): the upload's `.then` never
        runs and the button keeps spinning. */
    method OnSubmitSettled(uploadRejected: bool)
      modifies this`createLoading
      ensures createLoading == (old(createLoading) && uploadRejected)
    {
      if !uploadRejected {
        createLoading := false;
      }
    }
  }
}
