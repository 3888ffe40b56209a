/**
 * The relative paths module.json lists, as `Templates.Join` builds them
 * from their components, one "/" at a time. The facts live in a module of
 * their own, away from the long component sources.
 */
module Spelling {
  lemma CssAssetSpelled()
    ensures "Components" + "/" + ("Blocks" + "/" + "CSS.bay") == "Components/Blocks/CSS.bay"
  {
    JoinBlocksCss();
    JoinComponentsBlocksCss();
  }

  lemma JoinBlocksCss() ensures "Blocks" + "/" + "CSS.bay" == "Blocks/CSS.bay" {}
  lemma JoinComponentsBlocksCss() ensures "Components" + "/" + "Blocks/CSS.bay" == "Components/Blocks/CSS.bay" {}

  lemma IndexPageAssetSpelled()
    ensures "Components" + "/" + ("Pages" + "/" + ("IndexPage" + "/" + "IndexPage.bay"))
      == "Components/Pages/IndexPage/IndexPage.bay"
  {
    JoinIndexPageView();
    JoinPagesIndexPageView();
    JoinComponentsIndexPageView();
  }

  lemma JoinIndexPageView() ensures "IndexPage" + "/" + "IndexPage.bay" == "IndexPage/IndexPage.bay" {}
  lemma JoinPagesIndexPageView() ensures "Pages" + "/" + "IndexPage/IndexPage.bay" == "Pages/IndexPage/IndexPage.bay" {}
  lemma JoinComponentsIndexPageView()
    ensures "Components" + "/" + "Pages/IndexPage/IndexPage.bay" == "Components/Pages/IndexPage/IndexPage.bay" {}

  lemma IndexPageModelAssetSpelled()
    ensures "Components" + "/" + ("Pages" + "/" + ("IndexPage" + "/" + "IndexPageModel.bay"))
      == "Components/Pages/IndexPage/IndexPageModel.bay"
  {
    JoinIndexPageModel();
    JoinPagesIndexPageModel();
    JoinComponentsIndexPageModel();
  }

  lemma JoinIndexPageModel() ensures "IndexPage" + "/" + "IndexPageModel.bay" == "IndexPage/IndexPageModel.bay" {}
  lemma JoinPagesIndexPageModel() ensures "Pages" + "/" + "IndexPage/IndexPageModel.bay" == "Pages/IndexPage/IndexPageModel.bay" {}
  lemma JoinComponentsIndexPageModel()
    ensures "Components" + "/" + "Pages/IndexPage/IndexPageModel.bay" == "Components/Pages/IndexPage/IndexPageModel.bay" {}
}
