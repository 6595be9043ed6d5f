/**
 * The article editor's state and actions (src/composables/useArticleForm.ts).
 * Every `ref` is a field of `Form`; each awaited API call is an input outcome
 * and each action reports the notifications it shows and whether it called
 * the API at all.
 */
module ArticleForm {

  import opened Wrappers
  import opened Api
  import opened Message
  import Seqs
  import Strings
  import AsyncOperation

  /** `API.ArticleCategoryVO`. */
  datatype Category = Category(id: Option<int>, name: Option<string>)

  /** `API.ArticleTagVO`. */
  datatype Tag = Tag(id: Option<int>, name: Option<string>)

  /** The chosen file: its name and MIME type (`file.type`). */
  datatype File = File(name: string, mimeType: string)

  /** The payload `handleSubmit` passes on for `/article/add`. */
  datatype ArticleSubmit = ArticleSubmit(
    id: Option<int>, title: string, content: string, summary: string,
    categoryId: int, tagIds: string, status: int, cover: string)

  datatype SubmitDecision = Blocked(warning: Notification) | Submit(payload: ArticleSubmit)

  /** The fields of the article record that `initArticleData` reads; any of them may be missing. */
  datatype ArticleData = ArticleData(
    title: Option<string>, content: Option<string>, summary: Option<string>,
    categoryId: Option<int>, tagIds: Option<seq<int>>, status: Option<int>, coverUrl: Option<string>)

  const Published := 1
  const IncompleteWarning := "请填写完整信息"
  const NoCategoryWarning := "请选择博客分类"
  const BlankCategoryWarning := "分类名称不能为空"
  const BlankTagWarning := "标签名称不能为空"
  const ImageTypeMarker := "image/"

  /** `!name.trim()`: the name is empty or only whitespace. */
  function IsBlank(name: string): (b: bool)
    ensures b <==> forall i :: 0 <= i < |name| ==> Strings.IsWhitespace(name[i])
  {
    Strings.TrimEmptyIffBlank(name);
    Strings.Trim(name) == ""
  }

  /** `tagIds.join(",")`: the ids in decimal, comma-separated. */
  function IdText(ids: seq<int>): (r: string)
    ensures r == "" <==> ids == []
    ensures |ids| == 1 ==> r == Strings.IntToString(ids[0])
  {
    Strings.Join(seq(|ids|, i requires 0 <= i < |ids| => Strings.IntToString(ids[i])), ',')
  }

  /** A non-empty id list can be recovered from the submitted text by splitting on commas. */
  lemma IdTextReadsBack(ids: seq<int>)
    requires |ids| >= 1
    ensures var parts := Strings.Split(IdText(ids), ',');
      |parts| == |ids| && forall i :: 0 <= i < |ids| ==> Strings.DecimalValue(parts[i]) == ids[i]
  {
    var texts := seq(|ids|, i requires 0 <= i < |ids| => Strings.IntToString(ids[i]));
    forall i | 0 <= i < |texts| ensures ',' !in texts[i] {
      var t := texts[i];
      assert forall j :: 0 <= j < |t| ==> Strings.IsDigit(t[j]) || t[j] == '-';
    }
    Strings.SplitJoin(texts, ',');
    forall i | 0 <= i < |ids| ensures Strings.DecimalValue(texts[i]) == ids[i] {
      Strings.IntToStringValue(ids[i]);
    }
  }

  /** As in JavaScript, `[].join(",")` is `""`, and `"".split(",")` is `[""]`, not `[]`. */
  lemma NoTagsReadBackAsOneEmptyPart()
    ensures IdText([]) == ""
    ensures Strings.Split(IdText([]), ',') == [""]
  {
  }

  /** The wrapper options of `submitArticle`. */
  const SubmitOptions := AsyncOperation.Options(Some("博客提交成功"), Some("博客提交失败"))

  /**
   * Everything `handleSubmit` shows: the warning of a blocked submission, or,
   * once `submitArticle` has settled with `outcome`, the wrapper's one notice:
   * "博客提交成功", or the server's message, else "博客提交失败".
   */
  function SubmitNotices<T>(d: SubmitDecision, outcome: Outcome<T>): (shown: seq<Notification>)
    ensures |shown| == 1
    ensures d.Blocked? ==> shown == [d.warning]
    ensures d.Submit? && outcome.Ok? ==> shown == [Success("博客提交成功")]
    ensures d.Submit? && outcome.Fail? && outcome.error.response.Some? && Truthy(outcome.error.response.value.message) ==>
      shown == [Error(outcome.error.response.value.message.value)]
    ensures d.Submit? && outcome.Fail? && !(outcome.error.response.Some? && Truthy(outcome.error.response.value.message)) ==>
      shown == [Error("博客提交失败")]
  {
    if d.Blocked? then [d.warning] else AsyncOperation.Settle(outcome, SubmitOptions).shown
  }

  /** The wrapper options of `addCategory` and `addTag`. */
  const AddCategoryOptions := AsyncOperation.Options(Some("分类添加成功"), Some("添加分类失败"))
  const AddTagOptions := AsyncOperation.Options(Some("标签添加成功"), Some("添加标签失败"))

  /**
   * The wrapper's half of a blank-name `addCategory`: the body's `null` (after
   * the warning that `Form.AddCategory` shows) settles as a success, so the
   * wrapper adds "分类添加成功" although nothing was added.
   */
  lemma BlankCategoryNameStillReportsSuccess()
    ensures var blank: Outcome<Option<Response<Category>>> := Ok(None);
      AsyncOperation.Settle(blank, AddCategoryOptions) == AsyncOperation.Settled(Some(None), [Success("分类添加成功")])
  {
  }

  /** `tags.filter(tag => tag.id !== id)`. */
  function TagsWithout(tags: seq<Tag>, id: int): (r: seq<Tag>)
    ensures forall t :: t in r <==> t in tags && t.id != Some(id)
    ensures forall t: Tag :: t.id != Some(id) ==> multiset(r)[t] == multiset(tags)[t]
  {
    Seqs.Filter(tags, (t: Tag) => t.id != Some(id))
  }

  /** `categories.filter(category => category.id !== id)`. */
  function CategoriesWithout(categories: seq<Category>, id: int): (r: seq<Category>)
    ensures forall c :: c in r <==> c in categories && c.id != Some(id)
    ensures forall c: Category :: c.id != Some(id) ==> multiset(r)[c] == multiset(categories)[c]
  {
    Seqs.Filter(categories, (c: Category) => c.id != Some(id))
  }

  /** `tagIds.filter(x => x !== id)`. */
  function IdsWithout(ids: seq<int>, id: int): (r: seq<int>)
    ensures id !in r
    ensures forall x :: x != id ==> multiset(r)[x] == multiset(ids)[x]
  {
    Seqs.Filter(ids, (x: int) => x != id)
  }

  /** Deleting a tag keeps the remaining tags in their order: it commutes with concatenation. */
  lemma {:induction false} TagsWithoutPreservesOrder(a: seq<Tag>, b: seq<Tag>, id: int)
    ensures TagsWithout(a + b, id) == TagsWithout(a, id) + TagsWithout(b, id)
  {
    Seqs.FilterConcat(a, b, (t: Tag) => t.id != Some(id));
  }

  /** Deleting a category keeps the remaining categories in their order. */
  lemma {:induction false} CategoriesWithoutPreservesOrder(a: seq<Category>, b: seq<Category>, id: int)
    ensures CategoriesWithout(a + b, id) == CategoriesWithout(a, id) + CategoriesWithout(b, id)
  {
    Seqs.FilterConcat(a, b, (c: Category) => c.id != Some(id));
  }

  /** `data.status || 1`: a missing status and the draft status 0 both load as published. */
  function StatusOrPublished(status: Option<int>): (r: int)
    ensures r != 0
    ensures status.Some? && status.value != 0 ==> r == status.value
    ensures status == None || status == Some(0) ==> r == Published
  {
    if status.Some? && status.value != 0 then status.value else Published
  }

  /** `file.type.includes("image/")`. */
  function IsImage(file: File): (r: bool)
    ensures r <==> exists i :: Strings.OccursAt(file.mimeType, ImageTypeMarker, i)
  {
    Strings.Contains(file.mimeType, ImageTypeMarker)
  }

  /** A code-0 upload response that carries a non-empty URL. */
  function Uploaded(res: Response<string>): (r: bool)
    ensures r <==> res.data.Some? && res.data.value.code == Some(0) && Truthy(res.data.value.data)
  {
    Succeeded(res) && Payload(res) != ""
  }

  /** The animation flags, all off initially. */
  const InitialAnimations: map<string, bool> :=
    map["title" := false, "summary" := false, "category" := false, "tags" := false, "status" := false, "content" := false]

  class Form {
    var title: string
    var content: string
    var summary: string
    var categoryId: Option<int>
    var tagIds: seq<int>
    var status: int
    var coverUrl: string
    var articleId: Option<int>

    var categories: seq<Category>
    var newCategoryName: string
    var showCategoryForm: bool

    var tags: seq<Tag>
    var newTagName: string
    var showTagForm: bool

    var contentExpanded: bool
    var formVisible: bool
    var animations: map<string, bool>

    var isUploading: bool

    /** The initial values of the composable's refs. */
    constructor ()
      ensures title == "" && content == "" && summary == "" && categoryId == None && tagIds == []
      ensures status == Published && coverUrl == "" && articleId == None
      ensures categories == [] && newCategoryName == "" && !showCategoryForm
      ensures tags == [] && newTagName == "" && !showTagForm
      ensures !contentExpanded && !formVisible && animations == InitialAnimations && !isUploading
    {
      title, content, summary := "", "", "";
      categoryId, tagIds, status, coverUrl, articleId := None, [], Published, "", None;
      categories, newCategoryName, showCategoryForm := [], "", false;
      tags, newTagName, showTagForm := [], "", false;
      contentExpanded, formVisible, animations := false, false, InitialAnimations;
      isUploading := false;
    }

    /**
     * `handleSubmit()`: blocked with a warning when the title or the content
     * is empty, or when no category is chosen (id 0 counts as none);
     * otherwise the form's values are submitted, the tag ids joined by commas.
     */
    method HandleSubmit() returns (d: SubmitDecision)
      ensures d.Submit? <==> title != "" && content != "" && categoryId.Some? && categoryId.value != 0
      ensures title == "" || content == "" ==> d == Blocked(Warning(IncompleteWarning))
      ensures title != "" && content != "" && (categoryId == None || categoryId == Some(0)) ==>
        d == Blocked(Warning(NoCategoryWarning))
      ensures d.Submit? ==>
        d.payload == ArticleSubmit(articleId, title, content, summary, categoryId.value, IdText(tagIds), status, coverUrl)
    {
      if title == "" || content == "" {
        return Blocked(Warning(IncompleteWarning));
      }
      if categoryId.None? || categoryId.value == 0 {
        return Blocked(Warning(NoCategoryWarning));
      }
      d := Submit(ArticleSubmit(articleId, title, content, summary, categoryId.value, IdText(tagIds), status, coverUrl));
    }

    /**
     * The body of `addCategory(name)`: a blank name is refused with a warning
     * and resolves to null without a request; otherwise the outcome of
     * `submitCategory` decides, and only a code-0 response with data appends
     * the new category, clears the input and hides the form. A failed call
     * rejects with its error.
     */
    method AddCategory(name: string, outcome: Outcome<Response<Category>>)
      returns (r: Outcome<Option<Response<Category>>>, shown: seq<Notification>, requested: bool)
      modifies this`categories, this`newCategoryName, this`showCategoryForm
      ensures requested <==> !IsBlank(name)
      ensures !requested ==> r == Ok(None) && shown == [Warning(BlankCategoryWarning)]
      ensures requested ==> shown == [] && r == (if outcome.Ok? then Ok(Some(outcome.value)) else Fail(outcome.error))
      ensures requested && outcome.Ok? && Succeeded(outcome.value) ==>
        categories == old(categories) + [Payload(outcome.value)] && newCategoryName == "" && !showCategoryForm
      ensures !(requested && outcome.Ok? && Succeeded(outcome.value)) ==>
        categories == old(categories) && newCategoryName == old(newCategoryName) && showCategoryForm == old(showCategoryForm)
    {
      if IsBlank(name) {
        return Ok(None), [Warning(BlankCategoryWarning)], false;
      }
      requested := true;
      shown := [];
      match outcome {
        case Fail(error) =>
          r := Fail(error);
        case Ok(res) =>
          if Succeeded(res) {
            categories := categories + [Payload(res)];
            newCategoryName := "";
            showCategoryForm := false;
          }
          r := Ok(Some(res));
      }
    }

    /** The body of `addTag(name)`, the same steps as `AddCategory` on the tag list. */
    method AddTag(name: string, outcome: Outcome<Response<Tag>>)
      returns (r: Outcome<Option<Response<Tag>>>, shown: seq<Notification>, requested: bool)
      modifies this`tags, this`newTagName, this`showTagForm
      ensures requested <==> !IsBlank(name)
      ensures !requested ==> r == Ok(None) && shown == [Warning(BlankTagWarning)]
      ensures requested ==> shown == [] && r == (if outcome.Ok? then Ok(Some(outcome.value)) else Fail(outcome.error))
      ensures requested && outcome.Ok? && Succeeded(outcome.value) ==>
        tags == old(tags) + [Payload(outcome.value)] && newTagName == "" && !showTagForm
      ensures !(requested && outcome.Ok? && Succeeded(outcome.value)) ==>
        tags == old(tags) && newTagName == old(newTagName) && showTagForm == old(showTagForm)
    {
      if IsBlank(name) {
        return Ok(None), [Warning(BlankTagWarning)], false;
      }
      requested := true;
      shown := [];
      match outcome {
        case Fail(error) =>
          r := Fail(error);
        case Ok(res) =>
          if Succeeded(res) {
            tags := tags + [Payload(res)];
            newTagName := "";
            showTagForm := false;
          }
          r := Ok(Some(res));
      }
    }

    /**
     * `deleteTagFunction(tagId)`: an undefined id does nothing; otherwise, once
     * `deleteTag` resolves, every tag with that id leaves both the tag list and
     * the selection. A rejected call changes nothing and shows an error.
     */
    method DeleteTag(tagId: Option<int>, outcome: Outcome<Response<string>>)
      returns (shown: seq<Notification>, requested: bool)
      modifies this`tags, this`tagIds
      ensures requested <==> tagId.Some?
      ensures !requested ==> shown == [] && tags == old(tags) && tagIds == old(tagIds)
      ensures requested && outcome.Ok? ==>
        tags == TagsWithout(old(tags), tagId.value) && tagIds == IdsWithout(old(tagIds), tagId.value)
        && shown == [Success("标签删除成功")]
      ensures requested && outcome.Fail? ==>
        tags == old(tags) && tagIds == old(tagIds) && shown == [Error("标签删除失败")]
    {
      if tagId.None? {
        return [], false;
      }
      requested := true;
      var id := tagId.value;
      if outcome.Ok? {
        tags := TagsWithout(tags, id);
        tagIds := IdsWithout(tagIds, id);
        shown := [Success("标签删除成功")];
      } else {
        shown := [Error("标签删除失败")];
      }
    }

    /**
     * `deleteCategoryFunction(id)`: an undefined id does nothing; otherwise,
     * once `deleteCategory` resolves, matching categories are removed and the
     * selection is cleared only if it was this id. A rejected call changes
     * nothing and shows an error.
     */
    method DeleteCategory(id: Option<int>, outcome: Outcome<Response<string>>)
      returns (shown: seq<Notification>, requested: bool)
      modifies this`categories, this`categoryId
      ensures requested <==> id.Some?
      ensures !requested ==> shown == [] && categories == old(categories) && categoryId == old(categoryId)
      ensures requested && outcome.Ok? ==>
        && categories == CategoriesWithout(old(categories), id.value)
        && categoryId == (if old(categoryId) == id then None else old(categoryId))
        && shown == [Success("分类删除成功")]
      ensures requested && outcome.Fail? ==>
        categories == old(categories) && categoryId == old(categoryId) && shown == [Error("分类删除失败")]
    {
      if id.None? {
        return [], false;
      }
      requested := true;
      if outcome.Ok? {
        categories := CategoriesWithout(categories, id.value);
        if id == categoryId {
          categoryId := None;
        }
        shown := [Success("分类删除成功")];
      } else {
        shown := [Error("分类删除失败")];
      }
    }

    /**
     * `initArticleData(id, data)` for edit mode: empty or missing strings load
     * as "", missing tag ids as [], a falsy status as 1; the category id is
     * taken as given; the editor opens and every animation flag is switched on.
     */
    method InitArticleData(id: int, data: ArticleData)
      modifies this`articleId, this`title, this`content, this`summary, this`categoryId, this`tagIds,
               this`status, this`coverUrl, this`contentExpanded, this`formVisible, this`animations
      ensures articleId == Some(id)
      ensures title == OrElse(data.title, "") && content == OrElse(data.content, "") && summary == OrElse(data.summary, "")
      ensures categoryId == data.categoryId
      ensures tagIds == data.tagIds.GetOr([])
      ensures status == StatusOrPublished(data.status)
      ensures coverUrl == OrElse(data.coverUrl, "")
      ensures contentExpanded && formVisible
      ensures animations.Keys == old(animations).Keys
      ensures forall k :: k in animations ==> animations[k]
    {
      articleId := Some(id);
      title := OrElse(data.title, "");
      content := OrElse(data.content, "");
      summary := OrElse(data.summary, "");
      categoryId := data.categoryId;
      tagIds := data.tagIds.GetOr([]);
      status := StatusOrPublished(data.status);
      coverUrl := OrElse(data.coverUrl, "");
      contentExpanded := true;
      formVisible := true;
      var keys := animations.Keys;
      while keys != {}
        invariant keys <= animations.Keys
        invariant animations.Keys == old(animations).Keys
        invariant forall k :: k in animations && k !in keys ==> animations[k]
        modifies this`animations
        decreases keys
      {
        var k :| k in keys;
        animations := animations[k := true];
        keys := keys - {k};
      }
    }

    /** `removeCoverImage()`. */
    method RemoveCoverImage()
      modifies this`coverUrl
      ensures coverUrl == ""
    {
      coverUrl := "";
    }

    /**
     * `handleImageUpload(event)`: no file does nothing; a file whose type does
     * not contain "image/" is refused with an error and never uploaded;
     * otherwise the upload runs with `isUploading` raised, the cover changes
     * only for a code-0 response with a URL, and `isUploading` is lowered
     * whatever the outcome.
     */
    method HandleImageUpload(file: Option<File>, outcome: Outcome<Response<string>>)
      returns (shown: seq<Notification>, requested: bool, ghost uploadingWhileWaiting: bool)
      modifies this`isUploading, this`coverUrl
      ensures requested <==> file.Some? && IsImage(file.value)
      ensures file.None? ==> shown == [] && isUploading == old(isUploading) && coverUrl == old(coverUrl)
      ensures file.Some? && !IsImage(file.value) ==>
        shown == [Error("请上传图片文件")] && isUploading == old(isUploading) && coverUrl == old(coverUrl)
      ensures requested ==> uploadingWhileWaiting && !isUploading
      ensures requested && outcome.Ok? && Uploaded(outcome.value) ==>
        coverUrl == Payload(outcome.value) && shown == [Success("图片上传成功")]
      ensures requested && !(outcome.Ok? && Uploaded(outcome.value)) ==>
        coverUrl == old(coverUrl) && shown == [Error("图片上传失败")]
    {
      if file.None? {
        return [], false, false;
      }
      if !IsImage(file.value) {
        return [Error("请上传图片文件")], false, false;
      }
      requested := true;
      isUploading := true;
      uploadingWhileWaiting := isUploading;
      if outcome.Ok? && Uploaded(outcome.value) {
        coverUrl := Payload(outcome.value);
        shown := [Success("图片上传成功")];
      } else {
        shown := [Error("图片上传失败")];
      }
      isUploading := false;
    }
  }
}
